/** What every run of PonsV2BondingCurve transactions keeps, and what graduation therefore hands over. */
module BondingCurveRuns {
  import opened FloorMath
  import opened Outcomes
  import opened BondingCurveMath
  import opened BondingCurveModel

  /** Accepted terms have a virtual reserve, a threshold and a supply, and the reserve fixes the graduation point. */
  lemma AcceptedEconomics(c: Config)
    requires c.Valid()
    ensures 0 < c.phantomQuote && 0 < c.graduationThreshold && 0 < c.supply
    ensures c.Reserved() * (c.phantomQuote + c.graduationThreshold) <= c.phantomQuote * c.supply
  {
    if c.phantomQuote == 0 {
      MulDivUnique(c.supply, 0, c.graduationThreshold, 0);
    }
    if c.graduationThreshold == 0 {
      MulDivUnique(c.supply, c.phantomQuote, c.phantomQuote, c.supply);
    }
  }

  // ---- The invariant ----

  /** Trading: tokens are conserved, the allocation is intact and the product never fell below its start. */
  ghost predicate TradingInv(c: Config, s: State)
    requires c.Valid()
  {
    && c.Reserved() <= s.trackedTokens
    && s.trackedTokens + s.circulation <= c.supply
    && s.quoteFeeBalance + s.creatorTaxBalance <= s.trackedQuote
    && c.phantomQuote * c.supply <= Product(c, s)
  }

  /** The earmark is part of the pending fee and exceeds the creator's bucket by less than one unit per trade. */
  ghost predicate FeeInv(c: Config, s: State)
    requires c.Valid()
  {
    && s.buybackQuoteBalance <= s.quoteFeeBalance
    && s.buybackQuoteBalance <= CreatorBucket(c, s.quoteFeeBalance) + (if s.feeTrades == 0 then 0 else s.feeTrades - 1)
    && (s.feeTrades == 0 ==> s.quoteFeeBalance == 0)
    && s.feesCharged == s.quoteFeeBalance + s.creatorTaxBalance + s.protocolPaid + s.creatorPaid + s.buybackSpent
  }

  ghost predicate GraduatedInv(c: Config, s: State)
    requires c.Valid()
  {
    && s.trackedQuote == 0 && s.trackedTokens == 0 && s.quoteFeeBalance == 0 && s.creatorTaxBalance == 0
    && s.handedTokens == c.Reserved()
    && c.graduationThreshold <= s.handedQuote
  }

  ghost predicate Inv(c: Config, s: State) {
    && c.Valid()
    && s.held == s.trackedQuote + s.donated
    && FeeInv(c, s)
    && (if s.graduated then GraduatedInv(c, s) else TradingInv(c, s))
  }

  // ---- One trade ----

  /** What a buy of `received` leaves after the three charges when it is filled whole. */
  function Kept(c: Config, received: nat, elapsed: nat, exempt: bool): nat
    requires c.Valid()
  {
    received - ChargesOn(c, received, SnipeBps(c, elapsed, exempt)).Total()
  }

  /**
   A clamped fill charges a price between the quoted one and three units above it. The snipe tax a buy pays leaves
   the gross-up a divisor of at least 100; in both arms of its minimum the quote kept after the three floored
   charges is at least what `getAmountIn` asks for the whole sellable allocation, and the buyer never spends more
   than was received.
   */
  lemma ClampedFill(c: Config, s: State, received: nat, elapsed: nat, exempt: bool)
    requires c.Valid() && TradingInv(c, s) && 0 < SellableTokens(c, s)
    ensures BPS - c.feeBps - c.creatorTaxBps - SnipeBps(c, elapsed, exempt) >= 100
    ensures var r := FillFor(c, s, received, SnipeBps(c, elapsed, exempt));
            var sellable := SellableTokens(c, s);
            r.Success? && r.value.spent != received ==>
              && r.value.tokensOut == sellable && r.value.spent < received
    ensures var r := FillFor(c, s, received, SnipeBps(c, elapsed, exempt));
            var ask := GetAmountIn(SellableTokens(c, s), QuoteReserve(c, s), s.trackedTokens, 0);
            var kept := Kept(c, received, elapsed, exempt);
            r.Success? && SellableTokens(c, s) < QuoteAmountOut(kept, QuoteReserve(c, s), s.trackedTokens, 0) ==>
              && ask.Success?
              && r.value.tokensOut == SellableTokens(c, s)
              && r.value.spent <= received
              && ask.value <= r.value.spent - r.value.charges.Total() <= ask.value + 3
  {
    var snipeBps := SnipeBps(c, elapsed, exempt);
    var r := FillFor(c, s, received, snipeBps);
    var x, y, out: nat := QuoteReserve(c, s), s.trackedTokens, SellableTokens(c, s);
    var kept := Kept(c, received, elapsed, exempt);
    AcceptedEconomics(c);
    if r.Success? && out < QuoteAmountOut(kept, x, y, 0) {
      var net := GetAmountIn(out, x, y, 0).value;
      FeeFreeAmountOut(kept, x, y);
      FeeFreeAmountIn(out, x, y);
      BuyingMoreNeedsTheAsk(kept, x, y, out);
      GrossUp(net, received, c.feeBps, c.creatorTaxBps, snipeBps);
    }
  }

  /** A quote that would buy more than `out` is at least the ask for `out`. */
  lemma BuyingMoreNeedsTheAsk(kept: nat, x: nat, y: nat, out: nat)
    requires 0 < x && out < y && out < MulDiv(y, kept, x + kept)
    ensures MulDiv(x, out, y - out) + 1 <= kept
  {
    var q := MulDiv(y, kept, x + kept);
    MulLe(out, q, x + kept);
    assert out * (x + kept) == x * out + kept * out;
    assert y * kept - kept * out == kept * (y - out);
    CancelLt(MulDiv(x, out, y - out), kept, y - out) by {
      assert (out + 1) * (x + kept) == out * (x + kept) + (x + kept);
      MulLe(out + 1, q, x + kept);
    }
  }

  /** The arithmetic of the gross-up, for any net ask and any three rates that leave at least 1%. */
  lemma GrossUp(net: nat, received: nat, a: nat, b: nat, d: nat)
    requires a + b + d <= BPS - 100
    requires net <= received - (MulDiv(received, a, BPS) + MulDiv(received, b, BPS) + MulDiv(received, d, BPS))
    ensures var spent := Min(MulDivUp(net, BPS, BPS - a - b - d), received);
            var kept := spent - (MulDiv(spent, a, BPS) + MulDiv(spent, b, BPS) + MulDiv(spent, d, BPS));
            net <= kept <= net + 3
  {
    var w := BPS - a - b - d;
    var full := MulDivUp(net, BPS, w);
    var spent := Min(full, received);
    ChargesBounds(spent, a, b, d);
    Distribute(BPS, w, spent);
    MulLe(spent, full, w);
  }

  /** Whether or not it is clamped, a fill leaves the product at least where it was and spares the allocation. */
  lemma FillKeepsProduct(c: Config, s: State, received: nat, elapsed: nat, exempt: bool)
    requires c.Valid() && TradingInv(c, s)
    ensures var r := FillFor(c, s, received, SnipeBps(c, elapsed, exempt));
            r.Success? ==>
              && r.value.spent <= received && r.value.charges.Total() <= r.value.spent
              && r.value.tokensOut <= SellableTokens(c, s)
              && Product(c, s) <= (QuoteReserve(c, s) + r.value.spent - r.value.charges.Total())
                                  * (s.trackedTokens - r.value.tokensOut)
    ensures var r := FillFor(c, s, received, SnipeBps(c, elapsed, exempt));
            r.Failure? ==> r.error.Math? || r.error.CurveGraduated?
  {
    var r := FillFor(c, s, received, SnipeBps(c, elapsed, exempt));
    var x, y, out: nat := QuoteReserve(c, s), s.trackedTokens, SellableTokens(c, s);
    var kept := Kept(c, received, elapsed, exempt);
    AcceptedEconomics(c);
    if r.Success? {
      FeeFreeAmountOut(kept, x, y);
      if out < QuoteAmountOut(kept, x, y, 0) {
        ClampedFill(c, s, received, elapsed, exempt);
        FeeFreeAmountIn(out, x, y);
        AskKeepsProduct(r.value.spent - r.value.charges.Total(), x, y, out);
      } else {
        SwapKeepsProduct(x, y, kept);
      }
    }
  }

  lemma AskKeepsProduct(kept: nat, x: nat, y: nat, out: nat)
    requires out < y && MulDiv(x, out, y - out) + 1 <= kept
    ensures x * y <= (x + kept) * (y - out)
  {
    MulLe(MulDiv(x, out, y - out) + 1, kept, y - out);
    assert (x + kept) * (y - out) == x * y - x * out + kept * (y - out);
    assert (MulDiv(x, out, y - out) + 1) * (y - out) == MulDiv(x, out, y - out) * (y - out) + (y - out);
  }

  /** Charging a fee keeps the earmark inside its bound. */
  lemma AccrueKeepsFeeInv(c: Config, s: State, fee: nat, tax: nat)
    requires c.Valid() && FeeInv(c, s)
    ensures FeeInv(c, AccrueFees(c, s, fee, tax))
  {
    var slice := CreatorBucket(c, fee);
    ShareOfWhole(slice, c.buybackBurnBps, BPS);
    FloorOfSum(s.quoteFeeBalance, fee, c.protocolFeeShareBps, BPS);
  }

  lemma BookFillKeeps(c: Config, s: State, fill: Fill)
    requires Inv(c, s) && !s.graduated
    requires fill.charges.Total() <= fill.spent && fill.tokensOut <= SellableTokens(c, s)
    requires Product(c, s) <= (QuoteReserve(c, s) + fill.spent - fill.charges.Total())
                              * (s.trackedTokens - fill.tokensOut)
    ensures var t := BookFill(c, s, fill); Inv(c, t) && !t.graduated && Product(c, s) <= Product(c, t)
  {
    hide FeeInv;
    var t := BookFill(c, s, fill);
    AccrueKeepsFeeInv(c, s, fill.charges.fee + fill.charges.snipe, fill.charges.tax);
    FeeInvOfFees(c, AccrueFees(c, s, fill.charges.fee + fill.charges.snipe, fill.charges.tax), t);
    assert QuoteReserve(c, t) == QuoteReserve(c, s) + fill.spent - fill.charges.Total();
    assert t.trackedTokens == s.trackedTokens - fill.tokensOut;
  }

  /** The fee invariant looks at the fee accounts alone. */
  lemma FeeInvOfFees(c: Config, s: State, t: State)
    requires c.Valid() && FeeInv(c, s)
    requires t == s.(trackedQuote := t.trackedQuote, trackedTokens := t.trackedTokens, held := t.held,
                     circulation := t.circulation)
    ensures FeeInv(c, t)
  {
  }

  lemma BuyKeeps(c: Config, s: State, received: nat, minTokensOut: nat, elapsed: nat, exempt: bool)
    requires Inv(c, s)
    ensures var r := Buy(c, s, received, minTokensOut, elapsed, exempt);
            && r != Failure(Underflow) && r != Failure(TransferFailed)
            && (s.graduated ==> r.Failure?)
            && (r.Success? ==> Inv(c, r.value.0) && !r.value.0.graduated && Product(c, s) <= Product(c, r.value.0))
  {
    hide BookFill, FillFor, FeeInv;
    var r := Buy(c, s, received, minTokensOut, elapsed, exempt);
    if !s.graduated {
      FillKeepsProduct(c, s, received, elapsed, exempt);
      if r.Success? {
        BookFillKeeps(c, s, r.value.1);
      }
    }
  }

  /** Any sale of circulating tokens leaves the virtual reserve whole, though `sell` has no check for it. */
  lemma SaleStaysAboveVirtualReserve(c: Config, s: State, tokensIn: nat)
    requires c.Valid() && TradingInv(c, s) && tokensIn <= s.circulation
    ensures var gross := RawAmountOut(tokensIn, s.trackedTokens, QuoteReserve(c, s), 0);
            && gross <= RealQuoteReserve(s)
            && Product(c, s) <= (QuoteReserve(c, s) - gross) * (s.trackedTokens + tokensIn)
  {
    var x, y: nat := QuoteReserve(c, s), s.trackedTokens;
    AcceptedEconomics(c);
    FeeFreeAmountOut(tokensIn, y, x);
    SwapKeepsProduct(y, x, tokensIn);
    var gross := RawAmountOut(tokensIn, y, x, 0);
    assert (y + tokensIn) * (x - gross) == (x - gross) * (y + tokensIn);
    assert y * x == Product(c, s);
    ProductFloor(x - gross, y + tokensIn, c.phantomQuote, c.supply);
  }

  lemma SellKeeps(c: Config, s: State, tokensIn: nat, minQuoteOut: nat)
    requires Inv(c, s)
    ensures var r := Sell(c, s, tokensIn, minQuoteOut);
            && r != Failure(Underflow)
            && (r == Failure(TransferFailed) ==> s.circulation < tokensIn)
            && (s.graduated ==> r.Failure?)
            && (r.Success? ==> Inv(c, r.value.0) && !r.value.0.graduated && Product(c, s) <= Product(c, r.value.0))
  {
    var r := Sell(c, s, tokensIn, minQuoteOut);
    if !s.graduated && tokensIn <= s.circulation {
      SaleStaysAboveVirtualReserve(c, s, tokensIn);
      if r.Success? {
        var gross := RawAmountOut(tokensIn, s.trackedTokens, QuoteReserve(c, s), 0);
        var charges := ChargesOn(c, gross, 0);
        AccrueKeepsFeeInv(c, s, charges.fee, charges.tax);
        assert QuoteReserve(c, r.value.0) == QuoteReserve(c, s) - gross;
        assert r.value.0.trackedTokens == s.trackedTokens + tokensIn;
      }
    }
  }

  // ---- Fee distribution ----

  /** A split that pays everything pending, buys back within the sellable allocation and keeps the product. */
  ghost predicate GoodSplit(c: Config, s: State, split: Split)
    requires c.Valid()
  {
    && split.protocolAmount == ProtocolShare(c, s.quoteFeeBalance)
    && split.protocolAmount + split.buybackAmount + split.creatorAmount == s.quoteFeeBalance + s.creatorTaxBalance
    && split.buybackAmount <= s.buybackQuoteBalance
    && split.tokensLocked <= SellableTokens(c, s)
    && (split.buybackAmount == 0 <==> split.tokensLocked == 0)
    && Product(c, s) <= (QuoteReserve(c, s) + split.buybackAmount) * (s.trackedTokens - split.tokensLocked)
  }

  /** On every path protocol, executed buyback and creator together receive exactly the pending fees and tax. */
  lemma SweepConserves(c: Config, s: State, minOut: nat, execute: bool)
    requires c.Valid() && TradingInv(c, s) && FeeInv(c, s)
    ensures var r := SplitPending(c, s, minOut, execute);
            && (r.Success? ==> GoodSplit(c, s, r.value))
            && (r.Failure? ==> r.error in {MinimumOutputRequired, SlippageExceeded})
            && (!execute ==> r.Success? && r.value.buybackAmount == 0)
  {
    var b := Min(s.buybackQuoteBalance, CreatorBucket(c, s.quoteFeeBalance));
    if execute && b != 0 {
      var x: nat := QuoteReserve(c, s);
      AcceptedEconomics(c);
      FeeFreeAmountOut(b, x, s.trackedTokens);
      SwapKeepsProduct(x, s.trackedTokens, b);
    }
  }

  lemma PayOutKeeps(c: Config, s: State, split: Split)
    requires c.Valid() && TradingInv(c, s) && FeeInv(c, s) && GoodSplit(c, s, split)
    requires s.held == s.trackedQuote + s.donated
    ensures var r := PayOut(s, split);
            && r.Success?
            && TradingInv(c, r.value) && FeeInv(c, r.value)
            && r.value.held == r.value.trackedQuote + s.donated
            && Product(c, s) <= Product(c, r.value)
            && r.value.quoteFeeBalance == 0 && r.value.creatorTaxBalance == 0
            && QuoteReserve(c, r.value) == QuoteReserve(c, s) + split.buybackAmount
  {
    var s1 := PayOut(s, split).value;
    assert QuoteReserve(c, s1) == QuoteReserve(c, s) + split.buybackAmount;
    assert s1.trackedTokens == s.trackedTokens - split.tokensLocked;
  }

  lemma SweepKeeps(c: Config, s: State, minOut: nat, execute: bool)
    requires c.Valid() && TradingInv(c, s) && FeeInv(c, s) && s.held == s.trackedQuote + s.donated
    ensures var r := Sweep(c, s, minOut, execute);
            && (r.Failure? ==> r.error in {MinimumOutputRequired, SlippageExceeded})
            && (!execute ==> r.Success? && r.value.trackedTokens == s.trackedTokens
                             && QuoteReserve(c, r.value) == QuoteReserve(c, s))
            && (r.Success? ==>
                  && TradingInv(c, r.value) && FeeInv(c, r.value)
                  && r.value.held == r.value.trackedQuote + s.donated
                  && r.value.graduated == s.graduated && r.value.donated == s.donated
                  && r.value.quoteFeeBalance == 0 && r.value.creatorTaxBalance == 0
                  && Product(c, s) <= Product(c, r.value))
  {
    SweepConserves(c, s, minOut, execute);
    var split := SplitPending(c, s, minOut, execute);
    if split.Success? {
      PayOutKeeps(c, s, split.value);
    }
  }

  /** A rescue pays the two parties everything pending, earmark included, and leaves the curve as it was. */
  lemma RescueKeeps(c: Config, s: State)
    requires Inv(c, s)
    ensures var r := RescueFees(c, s);
            && (r.Success? <==> s.quoteFeeBalance != 0 || s.creatorTaxBalance != 0)
            && (r.Success? ==> Inv(c, r.value) && !s.graduated && Product(c, s) == Product(c, r.value)
                               && r.value.trackedTokens == s.trackedTokens)
    ensures var r := RescueFees(c, s);
            r.Success? ==>
              && IsFloor(r.value.protocolPaid - s.protocolPaid, s.quoteFeeBalance * c.protocolFeeShareBps, BPS)
              && r.value.protocolPaid + r.value.creatorPaid
                 == s.protocolPaid + s.creatorPaid + s.quoteFeeBalance + s.creatorTaxBalance
              && s.held - r.value.held == s.quoteFeeBalance + s.creatorTaxBalance
              && r.value.quoteFeeBalance == r.value.creatorTaxBalance == r.value.buybackQuoteBalance == 0
  {
    if !s.graduated {
      PayOutKeeps(c, s, Split(ProtocolShare(c, s.quoteFeeBalance), 0,
                              CreatorBucket(c, s.quoteFeeBalance) + s.creatorTaxBalance, 0));
    }
  }

  // ---- Graduation ----

  /** Selling out the allocation means the quote threshold was reached. */
  lemma SoldOutMeansThresholdReached(c: Config, s: State)
    requires c.Valid() && TradingInv(c, s) && SellableTokens(c, s) == 0
    ensures s.trackedTokens == c.Reserved() && c.graduationThreshold <= RealQuoteReserve(s)
  {
    AcceptedEconomics(c);
    CancelLe(c.phantomQuote + c.graduationThreshold, QuoteReserve(c, s), c.Reserved());
  }

  /** Graduating succeeds in every ready state and hands over the reserved tokens and all real quote. */
  lemma GraduateKeeps(c: Config, s: State)
    requires Inv(c, s)
    ensures var r := Graduate(c, s);
            && (r.Success? <==> ReadyToGraduate(c, s))
            && (r.Success? ==>
                  && Inv(c, r.value.0) && r.value.0.graduated
                  && r.value.1 == (RealQuoteReserve(s), c.Reserved())
                  && r.value.0.handedQuote == RealQuoteReserve(s)
                  && c.graduationThreshold <= RealQuoteReserve(s))
  {
    if ReadyToGraduate(c, s) {
      SweepKeeps(c, s.(graduated := true), 0, false);
      SoldOutMeansThresholdReached(c, s);
    }
  }

  // ---- Runs ----

  lemma StepKeeps(c: Config, s: State, op: Op)
    requires Inv(c, s)
    ensures Inv(c, Step(c, s, op))
    ensures s.graduated ==> Step(c, s, op).graduated
    ensures !Step(c, s, op).graduated ==> Product(c, s) <= Product(c, Step(c, s, op))
  {
    hide Buy, Sell, Sweep, RescueFees, Graduate;
    match op
    case OpBuy(received, minOut, elapsed, exempt) => BuyKeeps(c, s, received, minOut, elapsed, exempt);
    case OpSell(tokensIn, minOut) => SellKeeps(c, s, tokensIn, minOut);
    case OpSweepFees(isOperator, isCreator, minOut) =>
      if !s.graduated {
        SweepKeeps(c, s, minOut, true);
      }
    case OpRescueFees => RescueKeeps(c, s);
    case OpGraduate => GraduateKeeps(c, s);
    case _ =>
  }

  lemma {:induction false} RunKeeps(c: Config, s: State, ops: seq<Op>)
    requires Inv(c, s)
    ensures Inv(c, Run(c, s, ops))
    ensures s.graduated ==> Run(c, s, ops).graduated
    ensures !Run(c, s, ops).graduated ==> Product(c, s) <= Product(c, Run(c, s, ops))
    decreases |ops|
  {
    if ops != [] {
      StepKeeps(c, s, ops[0]);
      RunKeeps(c, Step(c, s, ops[0]), ops[1..]);
    }
  }

  /** Every state a deployed curve can reach. */
  lemma ReachableInv(c: Config, buybackEnabled: bool, ops: seq<Op>)
    requires c.Valid()
    ensures Inv(c, Run(c, Fresh(c, buybackEnabled), ops))
  {
    var s := Fresh(c, buybackEnabled);
    MulDivUnique(0, c.protocolFeeShareBps, BPS, 0);
    RunKeeps(c, s, ops);
  }

  /**
   The virtual reserve is never paid out. In every reachable state the fee and tax balances are covered by real
   quote, no transaction meets a failing checked subtraction, and no sale of circulating tokens or fee payout
   lacks the quote to settle.
   */
  lemma VirtualReserveNeverPaidOut(c: Config, buybackEnabled: bool, ops: seq<Op>, op: Op)
    requires c.Valid()
    ensures var s := Run(c, Fresh(c, buybackEnabled), ops);
            && s.quoteFeeBalance + s.creatorTaxBalance <= s.trackedQuote <= s.held
            && s.buybackQuoteBalance <= s.quoteFeeBalance
            && (!s.graduated ==> c.phantomQuote * c.supply <= Product(c, s))
            && Attempt(c, s, op) != Failure(Underflow)
            && (Attempt(c, s, op) == Failure(TransferFailed) ==> op.OpSell? && s.circulation < op.tokensIn)
  {
    var s := Run(c, Fresh(c, buybackEnabled), ops);
    ReachableInv(c, buybackEnabled, ops);
    match op
    case OpBuy(received, minOut, elapsed, exempt) => BuyKeeps(c, s, received, minOut, elapsed, exempt);
    case OpSell(tokensIn, minOut) => SellKeeps(c, s, tokensIn, minOut);
    case OpSweepFees(isOperator, isCreator, minOut) =>
      if !s.graduated {
        SweepKeeps(c, s, minOut, true);
      }
    case OpRescueFees => RescueKeeps(c, s);
    case OpGraduate => GraduateKeeps(c, s);
    case _ =>
  }

  /** The quote that buys of a run take in, and the quote its sales pay out. */
  function PaidIn(c: Config, s: State, ops: seq<Op>): nat
    requires c.Valid()
    decreases |ops|
  {
    if ops == [] then 0 else BuyPays(c, s, ops[0]) + PaidIn(c, Step(c, s, ops[0]), ops[1..])
  }

  function PaidOut(c: Config, s: State, ops: seq<Op>): nat
    requires c.Valid()
    decreases |ops|
  {
    if ops == [] then 0 else SalePays(c, s, ops[0]) + PaidOut(c, Step(c, s, ops[0]), ops[1..])
  }

  function BuyPays(c: Config, s: State, op: Op): nat
    requires c.Valid()
  {
    match op
    case OpBuy(received, minOut, elapsed, exempt) =>
      (match Buy(c, s, received, minOut, elapsed, exempt)
       case Success(filled) => filled.1.spent
       case Failure(_) => 0)
    case _ => 0
  }

  function SalePays(c: Config, s: State, op: Op): nat
    requires c.Valid()
  {
    match op
    case OpSell(tokensIn, minOut) =>
      (match Sell(c, s, tokensIn, minOut)
       case Success(sold) => sold.1
       case Failure(_) => 0)
    case _ => 0
  }

  /** Real reserve and fees charged, less the fees a buyback has put back into the reserve. */
  ghost function TakenIn(s: State): int {
    RealQuoteReserve(s) + s.feesCharged - s.buybackSpent
  }

  lemma StepOutlay(c: Config, s: State, op: Op)
    requires Inv(c, s)
    ensures !Step(c, s, op).graduated ==>
              TakenIn(Step(c, s, op)) == TakenIn(s) + BuyPays(c, s, op) - SalePays(c, s, op)
  {
    hide FillFor, ProceedsFor, SplitPending, Product;
    match op
    case OpSweepFees(isOperator, isCreator, minOut) =>
      if !s.graduated {
        SweepConserves(c, s, minOut, true);
      }
    case _ =>
  }

  lemma {:induction false} RunOutlay(c: Config, s: State, ops: seq<Op>)
    requires Inv(c, s)
    ensures !Run(c, s, ops).graduated ==>
              TakenIn(Run(c, s, ops)) == TakenIn(s) + PaidIn(c, s, ops) - PaidOut(c, s, ops)
    decreases |ops|
  {
    if ops != [] {
      StepOutlay(c, s, ops[0]);
      StepKeeps(c, s, ops[0]);
      RunKeeps(c, Step(c, s, ops[0]), ops[1..]);
      RunOutlay(c, Step(c, s, ops[0]), ops[1..]);
    }
  }

  /**
   Any stretch of a run that returns the token reserve to where it was leaves the quote reserve no lower, and the
   traders together at least the fees and taxes charged poorer, save what buybacks put back into the curve.
   */
  lemma NoExtraction(c: Config, buybackEnabled: bool, before: seq<Op>, segment: seq<Op>)
    requires c.Valid()
    ensures var s := Run(c, Fresh(c, buybackEnabled), before);
            var t := Run(c, s, segment);
            !t.graduated && t.trackedTokens == s.trackedTokens ==>
              && RealQuoteReserve(s) <= RealQuoteReserve(t)
              && PaidOut(c, s, segment) + (t.feesCharged - s.feesCharged)
                 <= PaidIn(c, s, segment) + (t.buybackSpent - s.buybackSpent)
  {
    var s := Run(c, Fresh(c, buybackEnabled), before);
    var t := Run(c, s, segment);
    ReachableInv(c, buybackEnabled, before);
    RunKeeps(c, s, segment);
    RunOutlay(c, s, segment);
    if !t.graduated && t.trackedTokens == s.trackedTokens {
      AcceptedEconomics(c);
      CancelLe(QuoteReserve(c, s), QuoteReserve(c, t), s.trackedTokens);
    }
  }

  /**
   The graduation point. Once the sellable allocation is gone nothing but `graduate` moves a token, the curve
   stays ready, and graduating hands over exactly the reserved tokens with at least the threshold of quote.
   */
  lemma GraduationPoint(c: Config, buybackEnabled: bool, ops: seq<Op>, op: Op)
    requires c.Valid()
    ensures var s := Run(c, Fresh(c, buybackEnabled), ops);
            ReadyToGraduate(c, s) ==>
              && (!op.OpGraduate? ==>
                    Step(c, s, op).trackedTokens == s.trackedTokens && ReadyToGraduate(c, Step(c, s, op)))
              && Graduate(c, s).Success?
              && Graduate(c, s).value.1 == (RealQuoteReserve(s), c.Reserved())
              && c.graduationThreshold <= RealQuoteReserve(s)
  {
    var s := Run(c, Fresh(c, buybackEnabled), ops);
    ReachableInv(c, buybackEnabled, ops);
    if ReadyToGraduate(c, s) {
      GraduateKeeps(c, s);
      match op
      case OpSweepFees(isOperator, isCreator, minOut) => SweepConserves(c, s, minOut, true);
      case OpBuy(received, minOut, elapsed, exempt) =>
        FillKeepsProduct(c, s, received, elapsed, exempt);
      case _ =>
    }
  }

  /** Over any run that ends graduated, what was handed over is the allocation and at least the threshold. */
  lemma GraduatedRunsHandOverTheAllocation(c: Config, buybackEnabled: bool, ops: seq<Op>)
    requires c.Valid()
    ensures var s := Run(c, Fresh(c, buybackEnabled), ops);
            s.graduated ==> s.handedTokens == c.Reserved() && c.graduationThreshold <= s.handedQuote
  {
    ReachableInv(c, buybackEnabled, ops);
  }

  // ---- The snipe tax ----

  lemma {:induction false} Pow2Monotone(j: nat, k: nat)
    requires j <= k
    ensures Pow2(j) <= Pow2(k)
    decreases k
  {
    if j < k {
      Pow2Monotone(j, k - 1);
    }
  }

  /** The tax never rises as the window passes and is zero from its end on. */
  lemma SnipeTaxDecays(c: Config, earlier: nat, later: nat, exempt: bool)
    requires earlier <= later
    ensures CurrentSnipeTaxBps(c, later, exempt) <= CurrentSnipeTaxBps(c, earlier, exempt) <= c.snipeTaxStartBps
    ensures c.snipeTaxSeconds <= later ==> CurrentSnipeTaxBps(c, later, exempt) == 0
  {
    if later < c.snipeTaxSeconds {
      MulDivMonotone(earlier, later, 14, c.snipeTaxSeconds);
      var p, q := Pow2(MulDiv(earlier, 14, c.snipeTaxSeconds)), Pow2(MulDiv(later, 14, c.snipeTaxSeconds));
      Pow2Monotone(MulDiv(earlier, 14, c.snipeTaxSeconds), MulDiv(later, 14, c.snipeTaxSeconds));
      DivAntitone(c.snipeTaxStartBps, p, q);
      DivAntitone(c.snipeTaxStartBps, 1, p);
    } else if earlier < c.snipeTaxSeconds {
      DivAntitone(c.snipeTaxStartBps, 1, Pow2(MulDiv(earlier, 14, c.snipeTaxSeconds)));
    }
  }

  lemma DivAntitone(a: nat, p: nat, q: nat)
    requires 0 < p <= q
    ensures 0 <= a / q <= a / p
  {
    DivBounds(a, p);
    DivBounds(a, q);
    MulLe(p, q, a / q);
    CancelLt(a / q, a / p + 1, p);
  }

  /**
   The tax reaches zero inside its window exactly when the starting rate is below the last power of two the
   window gets to, which is at most 2^13.
   */
  lemma SnipeTaxReachesZeroInsideWindow(c: Config)
    requires 0 < c.snipeTaxSeconds
    ensures var last := Pow2(MulDiv(c.snipeTaxSeconds - 1, 14, c.snipeTaxSeconds));
            && last <= 8_192
            && ((exists t: nat :: t < c.snipeTaxSeconds && CurrentSnipeTaxBps(c, t, false) == 0)
                <==> c.snipeTaxStartBps < last)
  {
    var w := c.snipeTaxSeconds;
    var k := MulDiv(w - 1, 14, w);
    CancelLt(k, 14, w);
    Pow2Monotone(k, 13);
    LastSecond(c);
    forall t: nat | t < w && CurrentSnipeTaxBps(c, t, false) == 0
      ensures c.snipeTaxStartBps < Pow2(k)
    {
      SnipeTaxDecays(c, t, w - 1, false);
    }
  }

  lemma LastSecond(c: Config)
    requires 0 < c.snipeTaxSeconds
    ensures var last := Pow2(MulDiv(c.snipeTaxSeconds - 1, 14, c.snipeTaxSeconds));
            CurrentSnipeTaxBps(c, c.snipeTaxSeconds - 1, false) == 0 <==> c.snipeTaxStartBps < last
  {
    var w := c.snipeTaxSeconds;
    var p := Pow2(MulDiv(w - 1, 14, w));
    DivBounds(c.snipeTaxStartBps, p);
    if c.snipeTaxStartBps < p {
      CancelLt(c.snipeTaxStartBps / p, 1, p);
    }
  }

  /** With the factory's own defaults, 99% over 15 seconds, it does not. */
  lemma DefaultSnipeTaxIsCutOff(c: Config)
    requires c.snipeTaxStartBps == 9_900 && c.snipeTaxSeconds == 15
    ensures forall t: nat :: t < 15 ==> CurrentSnipeTaxBps(c, t, false) != 0
  {
    SnipeTaxReachesZeroInsideWindow(c);
  }
}
