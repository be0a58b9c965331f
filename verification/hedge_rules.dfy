/** The pure decisions of the hedge engine (src/strategies/hedge-strategy.ts):
    leg pairing, fill classification, one-sided fill recovery, net-position
    correction, close planning and the emergency-close threshold. Every
    decision is a comparison on signed sizes, stated here with exact reals. */
module HedgeRules {
  import opened Types

  /** A leg counts as filled once its position moved by 95% of the order size. */
  const FillRatio: real := 0.95
  /** The dead band of the net-position correction. */
  const CorrectionBand: real := 0.01
  /** Below this size a venue position counts as closed. */
  const FlatThreshold: real := 0.001

  // ---------------------------------------------------------------------------
  // Leg pairing

  /** The Lighter leg's `isAsk`: a sell exactly when the Paradex leg is a buy. */
  function LighterIsAsk(paradexSide: Side): (isAsk: bool)
    ensures isAsk <==> paradexSide == Buy
  {
    paradexSide == Buy
  }

  /** The direction an `isAsk` flag stands for. */
  function SideOfAsk(isAsk: bool): (s: Side)
    ensures s == Sell <==> isAsk
  {
    if isAsk then Sell else Buy
  }

  /** The two opening orders, submitted together: the Paradex leg in the chosen
      direction and the Lighter leg in the other one, same size, not reduce-only. */
  function OpeningOrders(paradexSide: Side, size: real): (os: seq<Order>)
    ensures |os| == 2
    ensures os[0] == Order(Paradex, paradexSide, size, false)
    ensures os[1].venue == Lighter && os[1].side == Opposite(paradexSide)
    ensures os[1].size == size && !os[1].reduceOnly
  {
    [Order(Paradex, paradexSide, size, false),
     Order(Lighter, SideOfAsk(LighterIsAsk(paradexSide)), size, false)]
  }

  /** Whatever the direction, the two opening legs cancel: filled completely
      they leave the net position where it was. */
  lemma OpeningLegsHedge(paradexSide: Side, size: real)
    ensures SignedDelta(OpeningOrders(paradexSide, size)[0]) + SignedDelta(OpeningOrders(paradexSide, size)[1]) == 0.0
  {
  }

  // ---------------------------------------------------------------------------
  // Fill classification

  predicate LegFilled(before: real, now: real, expectedSize: real)
  {
    Abs(now - before) >= expectedSize * FillRatio
  }

  /** The fill status read off one position observation. */
  function FillOf(before: Positions, now: Positions, expectedSize: real): (f: FillStatus)
    ensures f.paradexFilled <==> Abs(now.paradex - before.paradex) >= expectedSize * 0.95
    ensures f.lighterFilled <==> Abs(now.lighter - before.lighter) >= expectedSize * 0.95
    ensures f.bothFilled <==> f.paradexFilled && f.lighterFilled
  {
    var paradexFilled := LegFilled(before.paradex, now.paradex, expectedSize);
    var lighterFilled := LegFilled(before.lighter, now.lighter, expectedSize);
    FillStatus(paradexFilled && lighterFilled, paradexFilled, lighterFilled)
  }

  /** The outcome of waitForOrdersFilled over the observations taken before
      the timeout (`polls`) and the one taken after it (`final`): both legs
      filled as soon as one poll shows it, otherwise the final observation's
      status. */
  function PollOutcome(before: Positions, polls: seq<Positions>, final: Positions, expectedSize: real): (f: FillStatus)
    ensures f.bothFilled <==> f.paradexFilled && f.lighterFilled
    ensures f.bothFilled <==>
              (exists i :: 0 <= i < |polls| && FillOf(before, polls[i], expectedSize).bothFilled)
              || FillOf(before, final, expectedSize).bothFilled
    ensures !f.bothFilled ==> f == FillOf(before, final, expectedSize)
  {
    if polls == [] then FillOf(before, final, expectedSize)
    else if FillOf(before, polls[0], expectedSize).bothFilled then FillStatus(true, true, true)
    else
      var rest := PollOutcome(before, polls[1..], final, expectedSize);
      assert forall i :: 1 <= i < |polls| ==> polls[i] == polls[1..][i - 1];
      rest
  }

  // ---------------------------------------------------------------------------
  // One-sided fill recovery

  /** What handlePartialFill does. */
  datatype Recovery =
    | NoRecovery
    | Compensate(order: Order)
    | RetryRound

  /** handlePartialFill: a one-sided fill gets exactly one new order, on the
      venue that did not fill, repeating that venue's opening leg; when neither
      leg filled nothing is placed and the attempt fails. */
  function PartialFillRecovery(filled: FillStatus, paradexSide: Side, size: real): (r: Recovery)
    ensures r.RetryRound? <==> !filled.paradexFilled && !filled.lighterFilled
    ensures r.Compensate? <==> filled.paradexFilled != filled.lighterFilled
    ensures filled.paradexFilled && !filled.lighterFilled ==> r == Compensate(OpeningOrders(paradexSide, size)[1])
    ensures !filled.paradexFilled && filled.lighterFilled ==> r == Compensate(OpeningOrders(paradexSide, size)[0])
  {
    if filled.paradexFilled && !filled.lighterFilled then
      Compensate(Order(Lighter, SideOfAsk(LighterIsAsk(paradexSide)), size, false))
    else if !filled.paradexFilled && filled.lighterFilled then
      Compensate(Order(Paradex, paradexSide, size, false))
    else if !filled.paradexFilled && !filled.lighterFilled then
      RetryRound
    else
      NoRecovery
  }

  /** The compensating order goes to the venue that did not fill, so a full
      fill of it and of the leg that did fill leaves the pair hedged. */
  lemma RecoveryCompletesPair(filled: FillStatus, paradexSide: Side, size: real)
    requires filled.paradexFilled != filled.lighterFilled
    ensures PartialFillRecovery(filled, paradexSide, size).order.venue == (if filled.paradexFilled then Lighter else Paradex)
    ensures !PartialFillRecovery(filled, paradexSide, size).order.reduceOnly
    ensures SignedDelta(PartialFillRecovery(filled, paradexSide, size).order)
            + SignedDelta(OpeningOrders(paradexSide, size)[if filled.paradexFilled then 0 else 1]) == 0.0
  {
  }

  // ---------------------------------------------------------------------------
  // Net-position correction

  /** correctNetPosition, with the guard in front of its call: a net position
      more than 0.01 away from zero gets one Paradex market order of |net| in
      the direction that brings it back; inside the band nothing is placed. */
  function CorrectionOrder(net: real): (r: Option<Order>)
    ensures r.Some? <==> Abs(net) > CorrectionBand
    ensures r.Some? ==> r.value.venue == Paradex && r.value.size == Abs(net) && !r.value.reduceOnly
    ensures net > CorrectionBand ==> r.Some? && r.value.side == Sell
    ensures net < -CorrectionBand ==> r.Some? && r.value.side == Buy
  {
    if net > CorrectionBand then Some(Order(Paradex, Sell, Abs(net), false))
    else if net < -CorrectionBand then Some(Order(Paradex, Buy, Abs(net), false))
    else None
  }

  /** Filled completely, the correction order brings the net position to zero. */
  lemma CorrectionRestoresHedge(net: real)
    requires Abs(net) > CorrectionBand
    ensures net + SignedDelta(CorrectionOrder(net).value) == 0.0
  {
  }

  // ---------------------------------------------------------------------------
  // Close planning

  /** Both venue positions are below the close threshold. */
  predicate IsFlat(p: Positions)
  {
    Abs(p.paradex) < FlatThreshold && Abs(p.lighter) < FlatThreshold
  }

  /** The Paradex close order, when the Paradex position is not negligible. */
  function ParadexClose(position: real): (r: seq<Order>)
    ensures |r| <= 1
    ensures |r| == 1 <==> Abs(position) >= FlatThreshold
  {
    if Abs(position) >= FlatThreshold then [Order(Paradex, if position > 0.0 then Sell else Buy, Abs(position), false)]
    else []
  }

  /** The Lighter close order (`isAsk` when long), always reduce-only. */
  function LighterClose(position: real): (r: seq<Order>)
    ensures |r| <= 1
    ensures |r| == 1 <==> Abs(position) >= FlatThreshold
  {
    if Abs(position) >= FlatThreshold then [Order(Lighter, SideOfAsk(position > 0.0), Abs(position), true)]
    else []
  }

  /** The close orders of one attempt: Paradex's then Lighter's. */
  function ClosePlan(p: Positions): seq<Order>
  {
    ParadexClose(p.paradex) + LighterClose(p.lighter)
  }

  /** The position of venue `v` in a snapshot. */
  function PositionAt(p: Positions, v: Venue): real
  {
    if v == Paradex then p.paradex else p.lighter
  }

  /** Close planning: nothing when both positions are flat; otherwise exactly
      one order per venue whose position is at least 0.001, in the direction
      opposite to that position, sized to its absolute value, so that filled
      completely it brings the venue to zero; the Lighter order is reduce-only
      and the Paradex one is not. */
  lemma ClosePlanCancels(p: Positions)
    ensures IsFlat(p) ==> ClosePlan(p) == []
    ensures |ClosePlan(p)| == (if Abs(p.paradex) >= FlatThreshold then 1 else 0) + (if Abs(p.lighter) >= FlatThreshold then 1 else 0)
    ensures forall i, j :: 0 <= i < j < |ClosePlan(p)| ==> ClosePlan(p)[i].venue != ClosePlan(p)[j].venue
    ensures forall o :: o in ClosePlan(p) ==>
              && Abs(PositionAt(p, o.venue)) >= FlatThreshold
              && PositionAt(p, o.venue) + SignedDelta(o) == 0.0
              && o.size == Abs(PositionAt(p, o.venue))
              && (o.reduceOnly <==> o.venue == Lighter)
  {
  }

  /** The close direction: a long position (positive) is sold, a short one bought. */
  lemma CloseDirection(p: Positions)
    ensures forall o :: o in ClosePlan(p) ==> (o.side == Sell <==> PositionAt(p, o.venue) > 0.0)
  {
  }

  // ---------------------------------------------------------------------------
  // Emergency close

  /** checkAndRebalance's trigger: the net position strictly exceeds the limit. */
  predicate ShouldEmergencyClose(net: real, maxNetPosition: real)
  {
    Abs(net) > maxNetPosition
  }

  /** With the default limit 0.1, a net position of exactly 0.1 (either sign)
      does not trigger the emergency close; 0.1000001 and a net of 0.5 do. */
  lemma EmergencyBoundary()
    ensures !ShouldEmergencyClose(0.1, 0.1) && !ShouldEmergencyClose(-0.1, 0.1)
    ensures ShouldEmergencyClose(0.1000001, 0.1) && ShouldEmergencyClose(-0.1000001, 0.1)
    ensures ShouldEmergencyClose(Positions(0.5, 0.0).Net(), 0.1)
  {
  }
}
