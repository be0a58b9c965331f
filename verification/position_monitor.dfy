/** The observe-only position monitor of src/monitors/position-monitor.ts. It
    reads both venue positions once per tick, alerts on an oversized net
    position and warns on a deviation; it never submits an order. The sleeps
    between ticks, the log lines and the alert transport are not modelled. */
module Monitors {
  import opened Types
  import opened Config

  /** What one call of checkPositions concludes. `ReadFailed` is a tick whose
      position read threw: the error is logged and swallowed. */
  datatype MonitorReport =
    | ReadFailed
    | Report(net: real, alert: bool, deviationWarning: bool)

  /** checkPositions: net = paradex + lighter; an alert exactly when |net| is
      strictly above maxNetPosition, a deviation warning exactly when it is
      strictly above maxPositionDeviation. */
  function CheckPositions(observed: Option<Positions>, risk: RiskConfig): (r: MonitorReport)
    ensures observed.None? <==> r.ReadFailed?
    ensures observed.Some? ==> r.net == observed.value.paradex + observed.value.lighter
    ensures observed.Some? ==> (r.alert <==> Abs(r.net) > risk.maxNetPosition)
    ensures observed.Some? ==> (r.deviationWarning <==> Abs(r.net) > risk.maxPositionDeviation)
  {
    match observed
    case None => ReadFailed
    case Some(p) =>
      var netPosition := p.paradex + p.lighter;
      Report(netPosition, Abs(netPosition) > risk.maxNetPosition, Abs(netPosition) > risk.maxPositionDeviation)
  }

  /** With the default thresholds every alert comes with a deviation warning,
      a net position exactly at the limit raises no alert, and a net position
      between the two thresholds is warned about without an alert. */
  lemma DefaultThresholds(observed: Positions)
    ensures CheckPositions(Some(observed), DefaultRisk()).alert ==> CheckPositions(Some(observed), DefaultRisk()).deviationWarning
    ensures Abs(observed.Net()) == DefaultMaxNetPosition ==> !CheckPositions(Some(observed), DefaultRisk()).alert
    ensures observed == Positions(0.1, -0.03) ==>
              var r := CheckPositions(Some(observed), DefaultRisk());
              r.deviationWarning && !r.alert
  {
  }

  /** One tick of the monitoring loop: the positions observed (None when the
      read threw) and whether stop() was called before the next tick. */
  datatype Tick = Tick(observed: Option<Positions>, stopRequested: bool)

  /** How many ticks run: up to and including the first one after which stop()
      was called, or all of them. */
  function TicksRun(ticks: seq<Tick>): (n: nat)
    ensures n <= |ticks|
    ensures forall i :: 0 <= i < n - 1 ==> !ticks[i].stopRequested
    ensures n < |ticks| ==> n > 0 && ticks[n - 1].stopRequested
    ensures (exists i :: 0 <= i < |ticks| && ticks[i].stopRequested) <==> n > 0 && ticks[n - 1].stopRequested
  {
    if ticks == [] then 0
    else if ticks[0].stopRequested then 1
    else 1 + TicksRun(ticks[1..])
  }

  /** The reports of a run of ticks, one per tick. */
  function Reports(ticks: seq<Tick>, risk: RiskConfig): (rs: seq<MonitorReport>)
    ensures |rs| == |ticks|
    ensures forall i :: 0 <= i < |ticks| ==> rs[i] == CheckPositions(ticks[i].observed, risk)
  {
    if ticks == [] then [] else Reports(ticks[..|ticks| - 1], risk) + [CheckPositions(ticks[|ticks| - 1].observed, risk)]
  }

  class PositionMonitor {
    const risk: RiskConfig
    var isRunning: bool

    constructor(config: TradingConfig)
      ensures risk == config.risk && !isRunning
    {
      risk := config.risk;
      isRunning := false;
    }

    /** start: sets the run flag and checks positions once per tick while it is
        set. Exactly the ticks up to the first stop request are checked; the
        flag ends cleared exactly when a stop was requested. */
    method Start(ticks: seq<Tick>) returns (reports: seq<MonitorReport>)
      modifies this
      ensures reports == Reports(ticks[..TicksRun(ticks)], risk)
      ensures !isRunning <==> exists i :: 0 <= i < |ticks| && ticks[i].stopRequested
    {
      isRunning := true;
      reports := [];
      var i := 0;
      while isRunning && i < |ticks|
        invariant 0 <= i <= TicksRun(ticks)
        invariant reports == Reports(ticks[..i], risk)
        invariant isRunning <==> i == 0 || !ticks[i - 1].stopRequested
      {
        assert ticks[..i + 1][..i] == ticks[..i];
        reports := reports + [CheckPositions(ticks[i].observed, risk)];
        if ticks[i].stopRequested {
          Stop();
        }
        i := i + 1;
      }
    }

    /** stop: clears the run flag, so no further tick starts. */
    method Stop()
      modifies this
      ensures !isRunning
    {
      isRunning := false;
    }
  }
}
