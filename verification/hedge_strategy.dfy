/** The round loop of the hedge engine (src/strategies/hedge-strategy.ts). The
    two venues are an abstract connector: every position read is a snapshot
    supplied by the environment, every order submission is appended to
    `orders` (whether the venue accepts it or not), and whether a submission
    is accepted is also supplied. Sleeps, the fill-wait clock and the random
    direction become these supplied values. */
module Strategy {
  import opened Types
  import opened Config
  import opened HedgeRules
  import opened PnL
  import opened LighterConnector

  // ---------------------------------------------------------------------------
  // waitForOrdersFilled

  /** waitForOrdersFilled: polls the positions (the observations made before
      the timeout), returns "both filled" at the first poll that shows both
      legs filled, and otherwise classifies the observation after the timeout. */
  method WaitForOrdersFilled(before: Positions, polls: seq<Positions>, final: Positions, expectedSize: real)
    returns (f: FillStatus)
    ensures f == PollOutcome(before, polls, final, expectedSize)
  {
    var i := 0;
    while i < |polls|
      invariant 0 <= i <= |polls|
      invariant PollOutcome(before, polls, final, expectedSize) == PollOutcome(before, polls[i..], final, expectedSize)
    {
      var positionsNow := polls[i];
      var paradexFilled := Abs(positionsNow.paradex - before.paradex) >= expectedSize * 0.95;
      var lighterFilled := Abs(positionsNow.lighter - before.lighter) >= expectedSize * 0.95;
      if paradexFilled && lighterFilled {
        return FillStatus(true, true, true);
      }
      assert polls[i..][1..] == polls[i + 1..];
      i := i + 1;
    }
    var paradexFilled := Abs(final.paradex - before.paradex) >= expectedSize * 0.95;
    var lighterFilled := Abs(final.lighter - before.lighter) >= expectedSize * 0.95;
    f := FillStatus(paradexFilled && lighterFilled, paradexFilled, lighterFilled);
  }

  // ---------------------------------------------------------------------------
  // One opening attempt

  /** The environment's answers during one attempt of openPositions. */
  datatype OpenAttemptScript = OpenAttemptScript(
    paradexSide: Side,          // the coin flip
    before: Positions,          // positions before submitting
    paradexAccepted: bool,      // the two settled submissions
    lighterAccepted: bool,
    polls: seq<Positions>,      // fill polls before the timeout
    final: Positions,           // the observation after the timeout
    recoveryAccepted: bool,     // the compensating order, if one is placed
    after: Positions,           // positions after the fill phase
    correctionAccepted: bool)   // the correction order, if one is placed

  /** The orders one attempt submits and whether it ends without an error. */
  datatype AttemptResult = AttemptResult(orders: seq<Order>, ok: bool)

  /** The correction step at the end of a successful fill phase. */
  function WithCorrection(prior: seq<Order>, after: Positions, accepted: bool): AttemptResult
  {
    match CorrectionOrder(after.Net())
    case None => AttemptResult(prior, true)
    case Some(o) => AttemptResult(prior + [o], accepted)
  }

  /** The body of one try of openPositions. */
  function Attempt(s: OpenAttemptScript, size: real): AttemptResult
  {
    var opening := OpeningOrders(s.paradexSide, size);
    if !s.paradexAccepted || !s.lighterAccepted then AttemptResult(opening, false)
    else
      var filled := PollOutcome(s.before, s.polls, s.final, size);
      if filled.bothFilled then WithCorrection(opening, s.after, s.correctionAccepted)
      else
        match PartialFillRecovery(filled, s.paradexSide, size)
        case RetryRound => AttemptResult(opening, false)
        case NoRecovery => WithCorrection(opening, s.after, s.correctionAccepted)
        case Compensate(o) =>
          if !s.recoveryAccepted then AttemptResult(opening + [o], false)
          else WithCorrection(opening + [o], s.after, s.correctionAccepted)
  }

  /** The fill status an attempt sees. */
  function FillPhase(s: OpenAttemptScript, size: real): FillStatus
  {
    PollOutcome(s.before, s.polls, s.final, size)
  }

  /** What one opening attempt does: both legs are always submitted; a rejected
      submission or a fill on neither venue fails the attempt with nothing more
      placed; a one-sided fill places exactly the missing leg once; and an
      attempt that gets through ends with one correction order exactly when the
      net position afterwards is outside the 0.01 band. */
  lemma AttemptCases(s: OpenAttemptScript, size: real)
    ensures 2 <= |Attempt(s, size).orders| <= 4 && Attempt(s, size).orders[..2] == OpeningOrders(s.paradexSide, size)
    ensures !(s.paradexAccepted && s.lighterAccepted) ==>
              Attempt(s, size) == AttemptResult(OpeningOrders(s.paradexSide, size), false)
    ensures s.paradexAccepted && s.lighterAccepted
            && !FillPhase(s, size).paradexFilled && !FillPhase(s, size).lighterFilled ==>
              Attempt(s, size) == AttemptResult(OpeningOrders(s.paradexSide, size), false)
    ensures s.paradexAccepted && s.lighterAccepted
            && FillPhase(s, size).paradexFilled != FillPhase(s, size).lighterFilled ==>
              && |Attempt(s, size).orders| >= 3
              && Attempt(s, size).orders[2] == OpeningOrders(s.paradexSide, size)[if FillPhase(s, size).paradexFilled then 1 else 0]
    ensures s.paradexAccepted && s.lighterAccepted && !s.recoveryAccepted
            && FillPhase(s, size).paradexFilled != FillPhase(s, size).lighterFilled ==>
              Attempt(s, size) == AttemptResult(OpeningOrders(s.paradexSide, size)
                                                + [OpeningOrders(s.paradexSide, size)[if FillPhase(s, size).paradexFilled then 1 else 0]], false)
    ensures Attempt(s, size).ok <==>
              && s.paradexAccepted && s.lighterAccepted
              && (FillPhase(s, size).paradexFilled || FillPhase(s, size).lighterFilled)
              && (FillPhase(s, size).paradexFilled != FillPhase(s, size).lighterFilled ==> s.recoveryAccepted)
              && (Abs(s.after.Net()) > CorrectionBand ==> s.correctionAccepted)
    ensures Attempt(s, size).ok && Abs(s.after.Net()) > CorrectionBand ==>
              && |Attempt(s, size).orders| == 3 + (if FillPhase(s, size).bothFilled then 0 else 1)
              && Attempt(s, size).orders[|Attempt(s, size).orders| - 1] == CorrectionOrder(s.after.Net()).value
    ensures Attempt(s, size).ok && Abs(s.after.Net()) <= CorrectionBand ==>
              |Attempt(s, size).orders| == 2 + (if FillPhase(s, size).bothFilled then 0 else 1)
  {
  }

  // ---------------------------------------------------------------------------
  // The open retry loop

  datatype OpenOutcome = Opened | Exhausted | NoAttempt

  /** The orders of attempts k, k+1, ... of openPositions, how the loop ends,
      and the attempt counter at the end. */
  datatype OpenRun = OpenRun(orders: seq<Order>, outcome: OpenOutcome, attempts: nat)

  function OpenFrom(atts: nat -> OpenAttemptScript, size: real, maxRetries: int, k: nat): OpenRun
    decreases if k < maxRetries then maxRetries - k else 0
  {
    if k >= maxRetries then OpenRun([], NoAttempt, k)
    else
      var a := Attempt(atts(k), size);
      if a.ok then OpenRun(a.orders, Opened, k + 1)
      else if k + 1 >= maxRetries then OpenRun(a.orders, Exhausted, k + 1)
      else
        var rest := OpenFrom(atts, size, maxRetries, k + 1);
        OpenRun(a.orders + rest.orders, rest.outcome, rest.attempts)
  }

  /** One step of the open retry loop, and the loop that makes no attempt. */
  lemma OpenFromStep(atts: nat -> OpenAttemptScript, size: real, maxRetries: int, k: nat)
    ensures k >= maxRetries ==> OpenFrom(atts, size, maxRetries, k) == OpenRun([], NoAttempt, k)
    ensures k < maxRetries && Attempt(atts(k), size).ok ==>
              OpenFrom(atts, size, maxRetries, k) == OpenRun(Attempt(atts(k), size).orders, Opened, k + 1)
    ensures k < maxRetries && !Attempt(atts(k), size).ok && k + 1 >= maxRetries ==>
              OpenFrom(atts, size, maxRetries, k) == OpenRun(Attempt(atts(k), size).orders, Exhausted, k + 1)
    ensures k < maxRetries && !Attempt(atts(k), size).ok && k + 1 < maxRetries ==>
              && OpenFrom(atts, size, maxRetries, k).orders == Attempt(atts(k), size).orders + OpenFrom(atts, size, maxRetries, k + 1).orders
              && OpenFrom(atts, size, maxRetries, k).outcome == OpenFrom(atts, size, maxRetries, k + 1).outcome
              && OpenFrom(atts, size, maxRetries, k).attempts == OpenFrom(atts, size, maxRetries, k + 1).attempts
  {
  }

  /** The open loop's bookkeeping: with the orders `done` of the attempts
      before k accounted for, attempt k either ends the run or leaves the rest
      to attempt k + 1. */
  lemma OpenLoopStep(atts: nat -> OpenAttemptScript, size: real, maxRetries: int, k: nat, done: seq<Order>)
    requires k < maxRetries
    requires OpenFrom(atts, size, maxRetries, 0).orders == done + OpenFrom(atts, size, maxRetries, k).orders
    requires OpenFrom(atts, size, maxRetries, 0).outcome == OpenFrom(atts, size, maxRetries, k).outcome
    ensures Attempt(atts(k), size).ok ==>
              && OpenFrom(atts, size, maxRetries, 0).orders == done + Attempt(atts(k), size).orders
              && OpenFrom(atts, size, maxRetries, 0).outcome == Opened
    ensures !Attempt(atts(k), size).ok && k + 1 >= maxRetries ==>
              && OpenFrom(atts, size, maxRetries, 0).orders == done + Attempt(atts(k), size).orders
              && OpenFrom(atts, size, maxRetries, 0).outcome == Exhausted
    ensures !Attempt(atts(k), size).ok && k + 1 < maxRetries ==>
              && OpenFrom(atts, size, maxRetries, 0).orders == (done + Attempt(atts(k), size).orders) + OpenFrom(atts, size, maxRetries, k + 1).orders
              && OpenFrom(atts, size, maxRetries, 0).outcome == OpenFrom(atts, size, maxRetries, k + 1).outcome
  {
    hide *;
    OpenFromStep(atts, size, maxRetries, k);
    var a := Attempt(atts(k), size);
    if !a.ok && k + 1 < maxRetries {
      assert done + (a.orders + OpenFrom(atts, size, maxRetries, k + 1).orders)
          == (done + a.orders) + OpenFrom(atts, size, maxRetries, k + 1).orders;
    }
  }

  /** The open retry budget: from attempt k the loop makes at most
      maxRetries - k more attempts; it ends "opened" only on an attempt that
      got through, after attempts that all failed, and it gives up only after
      exactly maxRetries attempts, every one of which failed. */
  lemma {:induction false} OpenRetryBudget(atts: nat -> OpenAttemptScript, size: real, maxRetries: int, k: nat)
    ensures OpenFrom(atts, size, maxRetries, k).outcome.NoAttempt? <==> k >= maxRetries
    ensures k < maxRetries ==> k < OpenFrom(atts, size, maxRetries, k).attempts <= maxRetries
    ensures OpenFrom(atts, size, maxRetries, k).outcome.Exhausted? ==> OpenFrom(atts, size, maxRetries, k).attempts == maxRetries
    ensures OpenFrom(atts, size, maxRetries, k).outcome.Opened? ==>
              Attempt(atts(OpenFrom(atts, size, maxRetries, k).attempts - 1), size).ok
    ensures forall j :: k <= j < OpenFrom(atts, size, maxRetries, k).attempts - 1 ==> !Attempt(atts(j), size).ok
    ensures OpenFrom(atts, size, maxRetries, k).outcome.Exhausted? ==>
              forall j :: k <= j < maxRetries ==> !Attempt(atts(j), size).ok
    ensures |OpenFrom(atts, size, maxRetries, k).orders| <= 4 * (OpenFrom(atts, size, maxRetries, k).attempts - k)
    decreases if k < maxRetries then maxRetries - k else 0
  {
    hide *;
    OpenFromStep(atts, size, maxRetries, k);
    if k < maxRetries {
      AttemptCases(atts(k), size);
      if !Attempt(atts(k), size).ok && k + 1 < maxRetries {
        OpenRetryBudget(atts, size, maxRetries, k + 1);
      }
    }
  }

  // ---------------------------------------------------------------------------
  // The close retry loop

  /** The environment's answers during one attempt of closePositions: the
      positions before submitting and after waiting. */
  datatype CloseAttemptScript = CloseAttemptScript(before: Positions, after: Positions)

  datatype CloseOutcome = AlreadyFlat | Closed | Residual | NoCloseAttempt

  datatype CloseRun = CloseRun(orders: seq<Order>, outcome: CloseOutcome, attempts: nat)

  /** Attempts k, k+1, ... of closePositions. */
  function CloseFrom(atts: nat -> CloseAttemptScript, maxRetries: int, k: nat): CloseRun
    decreases if k < maxRetries then maxRetries - k else 0
  {
    if k >= maxRetries then CloseRun([], NoCloseAttempt, k)
    else
      var a := atts(k);
      if IsFlat(a.before) then CloseRun([], AlreadyFlat, k + 1)
      else
        var plan := ClosePlan(a.before);
        if IsFlat(a.after) then CloseRun(plan, Closed, k + 1)
        else if k + 1 >= maxRetries then CloseRun(plan, Residual, k + 1)
        else
          var rest := CloseFrom(atts, maxRetries, k + 1);
          CloseRun(plan + rest.orders, rest.outcome, rest.attempts)
  }

  /** One step of the close retry loop, and the loop that makes no attempt. */
  lemma CloseFromStep(atts: nat -> CloseAttemptScript, maxRetries: int, k: nat)
    ensures k >= maxRetries ==> CloseFrom(atts, maxRetries, k) == CloseRun([], NoCloseAttempt, k)
    ensures k < maxRetries && IsFlat(atts(k).before) ==> CloseFrom(atts, maxRetries, k) == CloseRun([], AlreadyFlat, k + 1)
    ensures k < maxRetries && !IsFlat(atts(k).before) && IsFlat(atts(k).after) ==>
              CloseFrom(atts, maxRetries, k) == CloseRun(ClosePlan(atts(k).before), Closed, k + 1)
    ensures k < maxRetries && !IsFlat(atts(k).before) && !IsFlat(atts(k).after) && k + 1 >= maxRetries ==>
              CloseFrom(atts, maxRetries, k) == CloseRun(ClosePlan(atts(k).before), Residual, k + 1)
    ensures k < maxRetries && !IsFlat(atts(k).before) && !IsFlat(atts(k).after) && k + 1 < maxRetries ==>
              && CloseFrom(atts, maxRetries, k).orders == ClosePlan(atts(k).before) + CloseFrom(atts, maxRetries, k + 1).orders
              && CloseFrom(atts, maxRetries, k).outcome == CloseFrom(atts, maxRetries, k + 1).outcome
              && CloseFrom(atts, maxRetries, k).attempts == CloseFrom(atts, maxRetries, k + 1).attempts
  {
  }

  /** The close retry budget: from attempt k at most maxRetries - k more
      attempts; the round counts as closed only when both positions were seen
      below 0.001 after the last attempt's orders; a residual is left only
      after exactly maxRetries attempts; every earlier attempt saw open
      positions both before and after; and the only reduce-only close orders
      are Lighter's. */
  lemma {:induction false} CloseRetryBudget(atts: nat -> CloseAttemptScript, maxRetries: int, k: nat)
    ensures CloseFrom(atts, maxRetries, k).outcome.NoCloseAttempt? <==> k >= maxRetries
    ensures k < maxRetries ==> k < CloseFrom(atts, maxRetries, k).attempts <= maxRetries
    ensures CloseFrom(atts, maxRetries, k).outcome.AlreadyFlat? ==> IsFlat(atts(CloseFrom(atts, maxRetries, k).attempts - 1).before)
    ensures CloseFrom(atts, maxRetries, k).outcome.Closed? ==> IsFlat(atts(CloseFrom(atts, maxRetries, k).attempts - 1).after)
    ensures CloseFrom(atts, maxRetries, k).outcome.Residual? ==>
              CloseFrom(atts, maxRetries, k).attempts == maxRetries && !IsFlat(atts(maxRetries - 1).after)
    ensures forall j :: k <= j < CloseFrom(atts, maxRetries, k).attempts - 1 ==> !IsFlat(atts(j).before) && !IsFlat(atts(j).after)
    ensures forall o :: o in CloseFrom(atts, maxRetries, k).orders ==> (o.reduceOnly <==> o.venue == Lighter)
    decreases if k < maxRetries then maxRetries - k else 0
  {
    hide *;
    CloseFromStep(atts, maxRetries, k);
    if k < maxRetries && !IsFlat(atts(k).before) {
      ClosePlanCancels(atts(k).before);
      if !IsFlat(atts(k).after) && k + 1 < maxRetries {
        CloseRetryBudget(atts, maxRetries, k + 1);
      }
    }
  }

  // ---------------------------------------------------------------------------
  // Round PnL

  /** The two getLastRoundPnL answers: Paradex's figure (None when the call
      throws) and the Lighter order history (None when the query fails). */
  datatype PnLSource = PnLSource(paradexPnL: Option<real>, lighterHistory: Option<seq<LighterOrder>>)

  /** The environment of one closePositions call. */
  datatype CloseScript = CloseScript(attempts: nat -> CloseAttemptScript, pnl: PnLSource, now: int)

  /** The record calculateAndPrintPnL adds: a throwing Paradex call records
      (0, 0); otherwise Paradex's figure and the Lighter history's round PnL. */
  function RoundRecord(roundNumber: int, pnl: PnLSource, now: int): RoundPnL
  {
    if pnl.paradexPnL.None? then RoundPnL(roundNumber, 0.0, 0.0, 0.0, now)
    else
      var lighterPnL := if pnl.lighterHistory.Some? then LastRoundPnL(pnl.lighterHistory.value) else 0.0;
      RoundPnL(roundNumber, pnl.paradexPnL.value, lighterPnL, pnl.paradexPnL.value + lighterPnL, now)
  }

  // ---------------------------------------------------------------------------
  // Effects of whole operations: the orders submitted and the rounds recorded

  datatype Effect = Effect(orders: seq<Order>, records: seq<RoundPnL>)

  const NoEffect := Effect([], [])

  function Then(a: Effect, b: Effect): Effect
  {
    Effect(a.orders + b.orders, a.records + b.records)
  }

  /** closePositions(roundNumber): the close orders, and one record exactly
      when both positions were seen flat after an attempt's orders. */
  function CloseEffect(roundNumber: int, cs: CloseScript, maxRetries: int): Effect
  {
    var run := CloseFrom(cs.attempts, maxRetries, 0);
    Effect(run.orders, if run.outcome.Closed? then [RoundRecord(roundNumber, cs.pnl, cs.now)] else [])
  }

  /** openPositions: the attempts' orders, followed by the emergency close
      when the last allowed attempt failed. */
  function OpenEffect(atts: nat -> OpenAttemptScript, emergency: CloseScript, size: real, maxRetries: int): Effect
  {
    var run := OpenFrom(atts, size, maxRetries, 0);
    if run.outcome.Exhausted? then Then(Effect(run.orders, []), CloseEffect(0, emergency, maxRetries))
    else Effect(run.orders, [])
  }

  /** checkAndRebalance: an emergency close exactly when |net| > maxNetPosition. */
  function RebalanceEffect(observed: Positions, emergency: CloseScript, maxNetPosition: real, maxRetries: int): Effect
  {
    if ShouldEmergencyClose(observed.Net(), maxNetPosition) then CloseEffect(0, emergency, maxRetries) else NoEffect
  }

  /** The environment of one round of the main loop. */
  datatype RoundScript = RoundScript(
    observed: Positions,                         // checkAndRebalance's read
    rebalanceClose: CloseScript,                 // its emergency close, if any
    openAttempts: nat -> OpenAttemptScript,
    openEmergency: CloseScript,                  // openPositions' emergency close, if any
    close: CloseScript,
    stopRequested: bool)                         // stop() called during this round

  /** One round: rebalance check, opening, and (when the opening did not throw)
      the close of round `roundNumber`. */
  function RoundEffect(roundNumber: int, rs: RoundScript, c: TradingConfig): Effect
  {
    var maxRetries := c.strategy.maxRetries;
    var rebalance := RebalanceEffect(rs.observed, rs.rebalanceClose, c.risk.maxNetPosition, maxRetries);
    var open := OpenEffect(rs.openAttempts, rs.openEmergency, c.strategy.orderSize, maxRetries);
    if OpenFrom(rs.openAttempts, c.strategy.orderSize, maxRetries, 0).outcome.Exhausted? then Then(rebalance, open)
    else Then(Then(rebalance, open), CloseEffect(roundNumber, rs.close, maxRetries))
  }

  /** Rounds 1, 2, ... of the main loop, in order. */
  function RunEffect(rounds: seq<RoundScript>, c: TradingConfig): Effect
  {
    if rounds == [] then NoEffect
    else Then(RunEffect(rounds[..|rounds| - 1], c), RoundEffect(|rounds|, rounds[|rounds| - 1], c))
  }

  /** How many rounds run: up to and including the first one during which
      stop() was called, or all of them. */
  function RoundsRun(rounds: seq<RoundScript>): (n: nat)
    ensures n <= |rounds|
    ensures forall i :: 0 <= i < n - 1 ==> !rounds[i].stopRequested
    ensures (exists i :: 0 <= i < |rounds| && rounds[i].stopRequested) <==> n > 0 && rounds[n - 1].stopRequested
  {
    if rounds == [] then 0
    else if rounds[0].stopRequested then 1
    else 1 + RoundsRun(rounds[1..])
  }

  /** After n rounds none of which asked to stop, the loop runs another round
      when there is one, and stops after it when that round asks to. */
  lemma {:induction false} RoundsRunPast(rounds: seq<RoundScript>, n: nat)
    requires n <= |rounds|
    requires forall i :: 0 <= i < n ==> !rounds[i].stopRequested
    ensures n < |rounds| ==> n < RoundsRun(rounds)
    ensures n < |rounds| && rounds[n].stopRequested ==> RoundsRun(rounds) == n + 1
    ensures n == |rounds| ==> RoundsRun(rounds) == n
  {
    if n > 0 {
      assert forall i :: 0 <= i < n - 1 ==> !rounds[1..][i].stopRequested by {
        forall i | 0 <= i < n - 1 ensures !rounds[1..][i].stopRequested {
          assert rounds[1..][i] == rounds[i + 1];
        }
      }
      RoundsRunPast(rounds[1..], n - 1);
      if n < |rounds| {
        assert rounds[1..][n - 1] == rounds[n];
      }
    }
  }

  datatype OpenError = OpenRetriesExhausted
  datatype RunError = InitializationFailed

  // ---------------------------------------------------------------------------
  // The engine

  class HedgeStrategy {
    const config: TradingConfig
    const tracker: PnLTracker
    /** Every order submitted to either venue, in submission order. */
    var orders: seq<Order>
    var isRunning: bool

    ghost predicate Valid()
      reads tracker
    {
      tracker.Valid()
    }

    constructor(config: TradingConfig, now: int)
      ensures Valid() && fresh(tracker)
      ensures this.config == config && orders == [] && !isRunning && tracker.rounds == []
    {
      this.config := config;
      tracker := new PnLTracker(now);
      orders := [];
      isRunning := false;
    }

    /** A market order submission, as the connector logs it. */
    method Submit(o: Order)
      modifies this
      ensures orders == old(orders) + [o] && isRunning == old(isRunning)
    {
      orders := orders + [o];
    }

    /** handlePartialFill: `accepted` is the compensating order's submission
        verdict; false means the call threw. */
    method HandlePartialFill(filled: FillStatus, paradexSide: Side, lighterSide: bool, size: real, accepted: bool)
      returns (ok: bool)
      requires lighterSide == LighterIsAsk(paradexSide)
      modifies this
      ensures isRunning == old(isRunning)
      ensures PartialFillRecovery(filled, paradexSide, size).Compensate? ==>
                orders == old(orders) + [PartialFillRecovery(filled, paradexSide, size).order] && ok == accepted
      ensures !PartialFillRecovery(filled, paradexSide, size).Compensate? ==>
                orders == old(orders) && (ok <==> !PartialFillRecovery(filled, paradexSide, size).RetryRound?)
    {
      if filled.paradexFilled && !filled.lighterFilled {
        Submit(Order(Lighter, SideOfAsk(lighterSide), size, false));
        ok := accepted;
      } else if !filled.paradexFilled && filled.lighterFilled {
        Submit(Order(Paradex, paradexSide, size, false));
        ok := accepted;
      } else if !filled.paradexFilled && !filled.lighterFilled {
        ok := false;
      } else {
        ok := true;
      }
    }

    /** correctNetPosition, called when |net| > 0.01. */
    method CorrectNetPosition(netPosition: real, accepted: bool) returns (ok: bool)
      modifies this
      ensures isRunning == old(isRunning)
      ensures CorrectionOrder(netPosition).Some? ==> orders == old(orders) + [CorrectionOrder(netPosition).value] && ok == accepted
      ensures CorrectionOrder(netPosition).None? ==> orders == old(orders) && ok
    {
      var absNet := Abs(netPosition);
      ok := true;
      if netPosition > 0.01 {
        Submit(Order(Paradex, Sell, absNet, false));
        ok := accepted;
      } else if netPosition < -0.01 {
        Submit(Order(Paradex, Buy, absNet, false));
        ok := accepted;
      }
    }

    /** One try of openPositions; false means it threw. */
    method OpenAttempt(s: OpenAttemptScript) returns (ok: bool)
      modifies this
      ensures orders == old(orders) + Attempt(s, config.strategy.orderSize).orders
      ensures ok == Attempt(s, config.strategy.orderSize).ok
      ensures isRunning == old(isRunning)
    {
      hide PollOutcome, FillOf;
      var size := config.strategy.orderSize;
      var paradexSide := s.paradexSide;
      var lighterSide := LighterIsAsk(paradexSide);
      Submit(Order(Paradex, paradexSide, size, false));
      Submit(Order(Lighter, SideOfAsk(lighterSide), size, false));
      if !s.paradexAccepted || !s.lighterAccepted {
        return false;
      }
      var filled := WaitForOrdersFilled(s.before, s.polls, s.final, size);
      if !filled.bothFilled {
        ok := HandlePartialFill(filled, paradexSide, lighterSide, size, s.recoveryAccepted);
        if !ok {
          return;
        }
      }
      var netPosition := s.after.Net();
      ok := true;
      if Abs(netPosition) > 0.01 {
        ok := CorrectNetPosition(netPosition, s.correctionAccepted);
      }
    }

    /** The retry loop of openPositions: attempts until one gets through or
        maxRetries attempts were made; `exhausted` tells that the last allowed
        attempt failed. */
    method OpenRetryLoop(atts: nat -> OpenAttemptScript) returns (exhausted: bool)
      modifies this
      ensures exhausted <==> OpenFrom(atts, config.strategy.orderSize, config.strategy.maxRetries, 0).outcome.Exhausted?
      ensures orders == old(orders) + OpenFrom(atts, config.strategy.orderSize, config.strategy.maxRetries, 0).orders
      ensures isRunning == old(isRunning)
    {
      hide *;
      var maxRetries := config.strategy.maxRetries;
      ghost var size := config.strategy.orderSize;
      var attempt := 0;
      ghost var done: seq<Order> := [];
      var succeeded := false;
      exhausted := false;
      while attempt < maxRetries && !succeeded && !exhausted
        invariant 0 <= attempt
        invariant orders == old(orders) + done
        invariant !succeeded && !exhausted && attempt < maxRetries ==>
                    && OpenFrom(atts, size, maxRetries, 0).orders == done + OpenFrom(atts, size, maxRetries, attempt).orders
                    && OpenFrom(atts, size, maxRetries, 0).outcome == OpenFrom(atts, size, maxRetries, attempt).outcome
        invariant succeeded ==> !exhausted && OpenFrom(atts, size, maxRetries, 0).orders == done && OpenFrom(atts, size, maxRetries, 0).outcome == Opened
        invariant exhausted ==> OpenFrom(atts, size, maxRetries, 0).orders == done && OpenFrom(atts, size, maxRetries, 0).outcome == Exhausted
        invariant !succeeded && !exhausted && attempt >= maxRetries ==> attempt == 0 && done == []
        invariant isRunning == old(isRunning)
        decreases maxRetries - attempt
      {
        OpenLoopStep(atts, size, maxRetries, attempt, done);
        ghost var a := Attempt(atts(attempt), size);
        var ok := OpenAttempt(atts(attempt));
        done := done + a.orders;
        attempt := attempt + 1;
        if ok {
          succeeded := true;
        } else if attempt >= maxRetries {
          exhausted := true;
        }
      }
      if !succeeded && !exhausted {
        OpenFromStep(atts, size, maxRetries, 0);
      }
    }

    /** openPositions: at most maxRetries attempts; the first attempt that
        gets through ends the call normally; when the last allowed attempt
        fails, the emergency close runs and the error is rethrown. With no
        attempt allowed nothing happens and the call returns normally. */
    method OpenPositions(atts: nat -> OpenAttemptScript, emergency: CloseScript) returns (r: Result<(), OpenError>)
      requires Valid()
      modifies this, tracker
      ensures Valid() && isRunning == old(isRunning)
      ensures r.Failure? <==> OpenFrom(atts, config.strategy.orderSize, config.strategy.maxRetries, 0).outcome.Exhausted?
      ensures orders == old(orders) + OpenEffect(atts, emergency, config.strategy.orderSize, config.strategy.maxRetries).orders
      ensures tracker.rounds == old(tracker.rounds) + OpenEffect(atts, emergency, config.strategy.orderSize, config.strategy.maxRetries).records
    {
      hide OpenFrom, CloseEffect, PnLTracker.Valid;
      var exhausted := OpenRetryLoop(atts);
      if exhausted {
        EmergencyClose(emergency);
        return Failure(OpenRetriesExhausted);
      }
      r := Success(());
    }

    /** The submissions of one close attempt. */
    method SubmitClosePlan(positions: Positions)
      modifies this
      ensures orders == old(orders) + ClosePlan(positions) && isRunning == old(isRunning)
    {
      if Abs(positions.paradex) >= 0.001 {
        var side := if positions.paradex > 0.0 then Sell else Buy;
        Submit(Order(Paradex, side, Abs(positions.paradex), false));
      }
      if Abs(positions.lighter) >= 0.001 {
        var isAsk := positions.lighter > 0.0;
        Submit(Order(Lighter, SideOfAsk(isAsk), Abs(positions.lighter), true));
      }
    }

    /** calculateAndPrintPnL: records exactly one round. */
    method CalculateAndPrintPnL(roundNumber: int, pnl: PnLSource, now: int)
      requires Valid()
      modifies tracker
      ensures Valid()
      ensures tracker.rounds == old(tracker.rounds) + [RoundRecord(roundNumber, pnl, now)]
    {
      if pnl.paradexPnL.None? {
        tracker.PrintRoundPnL(roundNumber, 0.0, 0.0, now);
        return;
      }
      var paradexPnL := pnl.paradexPnL.value;
      var lighterPnL := GetLastRoundPnL(pnl.lighterHistory);
      tracker.PrintRoundPnL(roundNumber, paradexPnL, lighterPnL, now);
    }

    /** The retry loop of closePositions: attempts until one finds both
        positions flat before or after its orders, or maxRetries attempts were
        made; `closed` tells that the last attempt saw them flat after its
        orders. */
    method CloseRetryLoop(atts: nat -> CloseAttemptScript) returns (closed: bool)
      modifies this
      ensures closed <==> CloseFrom(atts, config.strategy.maxRetries, 0).outcome.Closed?
      ensures orders == old(orders) + CloseFrom(atts, config.strategy.maxRetries, 0).orders
      ensures isRunning == old(isRunning)
    {
      hide CloseFrom, ClosePlan;
      var maxRetries := config.strategy.maxRetries;
      var attempt := 0;
      ghost var done: seq<Order> := [];
      while attempt < maxRetries
        invariant 0 <= attempt && (attempt > 0 ==> attempt < maxRetries)
        invariant orders == old(orders) + done
        invariant attempt < maxRetries ==>
                    && CloseFrom(atts, maxRetries, 0).orders == done + CloseFrom(atts, maxRetries, attempt).orders
                    && CloseFrom(atts, maxRetries, 0).outcome == CloseFrom(atts, maxRetries, attempt).outcome
        invariant attempt >= maxRetries ==> done == []
        invariant isRunning == old(isRunning)
        decreases maxRetries - attempt
      {
        CloseFromStep(atts, maxRetries, attempt);
        attempt := attempt + 1;
        var positions := atts(attempt - 1).before;
        if Abs(positions.paradex) < 0.001 && Abs(positions.lighter) < 0.001 {
          return false;
        }
        SubmitClosePlan(positions);
        done := done + ClosePlan(positions);
        var positionsAfter := atts(attempt - 1).after;
        if Abs(positionsAfter.paradex) < 0.001 && Abs(positionsAfter.lighter) < 0.001 {
          return true;
        }
        if attempt >= maxRetries {
          return false;
        }
      }
      CloseFromStep(atts, maxRetries, attempt);
      closed := false;
    }

    /** closePositions: at most maxRetries attempts; an attempt that finds both
        positions flat returns without orders; otherwise it submits the close
        plan and, when both positions are then flat, records the round's PnL
        and returns; a residual after the last attempt returns normally. */
    method ClosePositions(roundNumber: int, cs: CloseScript)
      requires Valid()
      modifies this, tracker
      ensures Valid() && isRunning == old(isRunning)
      ensures orders == old(orders) + CloseEffect(roundNumber, cs, config.strategy.maxRetries).orders
      ensures tracker.rounds == old(tracker.rounds) + CloseEffect(roundNumber, cs, config.strategy.maxRetries).records
    {
      hide CloseFrom, RoundRecord, PnLTracker.Valid;
      var closed := CloseRetryLoop(cs.attempts);
      if closed {
        CalculateAndPrintPnL(roundNumber, cs.pnl, cs.now);
      }
    }

    /** emergencyClose: a close with round number 0. */
    method EmergencyClose(cs: CloseScript)
      requires Valid()
      modifies this, tracker
      ensures Valid() && isRunning == old(isRunning)
      ensures orders == old(orders) + CloseEffect(0, cs, config.strategy.maxRetries).orders
      ensures tracker.rounds == old(tracker.rounds) + CloseEffect(0, cs, config.strategy.maxRetries).records
    {
      ClosePositions(0, cs);
    }

    /** checkAndRebalance: an emergency close exactly when |net| strictly
        exceeds maxNetPosition; otherwise nothing. */
    method CheckAndRebalance(observed: Positions, emergency: CloseScript)
      requires Valid()
      modifies this, tracker
      ensures Valid() && isRunning == old(isRunning)
      ensures orders == old(orders) + RebalanceEffect(observed, emergency, config.risk.maxNetPosition, config.strategy.maxRetries).orders
      ensures tracker.rounds == old(tracker.rounds) + RebalanceEffect(observed, emergency, config.risk.maxNetPosition, config.strategy.maxRetries).records
    {
      var netPosition := observed.Net();
      if Abs(netPosition) > config.risk.maxNetPosition {
        EmergencyClose(emergency);
      }
    }

    /** The try block of one loop iteration of run; an opening failure is
        caught there and ends the round. */
    method RunRound(roundNumber: int, rs: RoundScript)
      requires Valid()
      modifies this, tracker
      ensures Valid() && isRunning == old(isRunning)
      ensures orders == old(orders) + RoundEffect(roundNumber, rs, config).orders
      ensures tracker.rounds == old(tracker.rounds) + RoundEffect(roundNumber, rs, config).records
    {
      hide OpenEffect, CloseEffect, RebalanceEffect, OpenFrom, PnLTracker.Valid;
      ghost var maxRetries := config.strategy.maxRetries;
      ghost var rebalance := RebalanceEffect(rs.observed, rs.rebalanceClose, config.risk.maxNetPosition, maxRetries);
      ghost var open := OpenEffect(rs.openAttempts, rs.openEmergency, config.strategy.orderSize, maxRetries);
      ghost var close := CloseEffect(roundNumber, rs.close, maxRetries);
      ghost var orders0, records0 := orders, tracker.rounds;
      CheckAndRebalance(rs.observed, rs.rebalanceClose);
      ghost var orders1, records1 := orders, tracker.rounds;
      var opening := OpenPositions(rs.openAttempts, rs.openEmergency);
      assert orders == orders0 + Then(rebalance, open).orders by {
        assert orders == orders1 + open.orders && orders1 == orders0 + rebalance.orders;
      }
      assert tracker.rounds == records0 + Then(rebalance, open).records by {
        assert tracker.rounds == records1 + open.records && records1 == records0 + rebalance.records;
      }
      if opening.Failure? {
        return;
      }
      ghost var orders2, records2 := orders, tracker.rounds;
      ClosePositions(roundNumber, rs.close);
      assert orders == orders2 + close.orders;
      assert tracker.rounds == records2 + close.records;
    }

    /** run: sets the run flag, initialises (a failure propagates and leaves
        the flag set), then runs rounds numbered 1, 2, ... while the flag is
        set; the flag ends cleared exactly when stop() was called. */
    method Run(initialized: bool, rounds: seq<RoundScript>) returns (r: Result<(), RunError>)
      requires Valid()
      modifies this, tracker
      ensures Valid()
      ensures !initialized ==>
                r == Failure(InitializationFailed) && isRunning && orders == old(orders) && tracker.rounds == old(tracker.rounds)
      ensures initialized ==> r.Success?
      ensures initialized ==> (!isRunning <==> exists i :: 0 <= i < |rounds| && rounds[i].stopRequested)
      ensures initialized ==> orders == old(orders) + RunEffect(rounds[..RoundsRun(rounds)], config).orders
      ensures initialized ==> tracker.rounds == old(tracker.rounds) + RunEffect(rounds[..RoundsRun(rounds)], config).records
    {
      hide RoundEffect, PnLTracker.Valid;
      isRunning := true;
      if !initialized {
        return Failure(InitializationFailed);
      }
      var roundCount := 0;
      while isRunning && roundCount < |rounds|
        invariant 0 <= roundCount <= RoundsRun(rounds)
        invariant isRunning <==> roundCount == 0 || !rounds[roundCount - 1].stopRequested
        invariant forall i :: 0 <= i < roundCount - 1 ==> !rounds[i].stopRequested
        invariant !isRunning ==> roundCount == RoundsRun(rounds)
        invariant orders == old(orders) + RunEffect(rounds[..roundCount], config).orders
        invariant tracker.rounds == old(tracker.rounds) + RunEffect(rounds[..roundCount], config).records
        invariant Valid()
      {
        RoundsRunPast(rounds, roundCount);
        roundCount := roundCount + 1;
        assert rounds[..roundCount][..roundCount - 1] == rounds[..roundCount - 1];
        RunRound(roundCount, rounds[roundCount - 1]);
        if rounds[roundCount - 1].stopRequested {
          Stop();
        }
      }
      if isRunning {
        RoundsRunPast(rounds, roundCount);
      }
      r := Success(());
    }

    /** stop: clears the run flag (the final summary it prints is not
        modelled). */
    method Stop()
      modifies this
      ensures !isRunning && orders == old(orders)
    {
      isRunning := false;
    }
  }
}
