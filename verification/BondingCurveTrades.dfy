/**
 What a transaction of PonsV2BondingCurve charges, pays and locks, to the unit. Every amount is given by the two
 inequalities of its rounding, in every reachable state.
 */
module BondingCurveTrades {
  import opened FloorMath
  import opened Outcomes
  import opened BondingCurveMath
  import opened BondingCurveModel
  import opened BondingCurveRuns

  /** A state some run of transactions reaches. */
  ghost predicate Reachable(c: Config, s: State)
    requires c.Valid()
  {
    exists enabled, ops :: s == Run(c, Fresh(c, enabled), ops)
  }

  lemma ReachableKeepsInv(c: Config, s: State)
    requires c.Valid() && Reachable(c, s)
    ensures Inv(c, s)
  {
    hide Run, Inv, Fresh;
    var enabled, ops :| s == Run(c, Fresh(c, enabled), ops);
    ReachableInv(c, enabled, ops);
  }

  /** The terms a curve accepts, and the state it starts in: all of the supply, none of it sold, nothing pending. */
  lemma LaunchTerms(c: Config, enabled: bool)
    ensures Deploy(c, enabled).Success? <==>
              && c.feeBps + c.creatorTaxBps <= 2_000 && c.protocolFeeShareBps <= 10_000 && c.buybackBurnBps <= 10_000
              && 0 < c.maxInternalPriceImpactBps < 10_000
              && 0 < c.graduationThreshold
              && c.phantomQuote + c.graduationThreshold <= c.phantomQuote * c.supply
    ensures Deploy(c, enabled).Success? ==>
              var s := Deploy(c, enabled).value;
              && s.trackedTokens == c.supply && s.trackedQuote == s.quoteFeeBalance == s.creatorTaxBalance == 0
              && s.buybackEnabled == enabled && !s.graduated
              && IsFloor(c.Reserved(), c.supply * c.phantomQuote, c.phantomQuote + c.graduationThreshold)
  {
    if 0 < c.phantomQuote + c.graduationThreshold {
      ReservedBetween(c.supply, c.phantomQuote, c.graduationThreshold);
    }
  }

  /** The reserved part is positive and not all exactly when its share is a whole token and there is a threshold. */
  lemma ReservedBetween(supply: nat, phantom: nat, threshold: nat)
    requires 0 < phantom + threshold
    ensures 0 < MulDiv(supply, phantom, phantom + threshold) <==> phantom + threshold <= phantom * supply
    ensures 0 < supply ==> (MulDiv(supply, phantom, phantom + threshold) < supply <==> 0 < threshold)
  {
    var q := MulDiv(supply, phantom, phantom + threshold);
    if phantom + threshold <= phantom * supply {
      CancelLt(0, q, phantom + threshold);
    } else {
      CancelLt(q, 1, phantom + threshold);
    }
    ShareOfWhole(supply, phantom, phantom + threshold);
    if threshold == 0 {
      MulDivUnique(supply, phantom, phantom, supply);
    }
  }

  // ---- Charges ----

  /** A fee adds its buyback slice to the earmark when buybacks are on: a floored part of what the protocol leaves. */
  ghost predicate Earmarked(c: Config, enabled: bool, fee: nat, slice: int) {
    if enabled then
      exists share: nat :: IsFloor(share, fee * c.protocolFeeShareBps, BPS)
                           && IsFloor(slice, (fee - share) * c.buybackBurnBps, BPS)
    else slice == 0
  }

  /** Fees and tax enter their own balances, and nothing else of the accounts moves. */
  ghost predicate Booked(c: Config, s: State, t: State, fee: nat, tax: nat) {
    && t.quoteFeeBalance == s.quoteFeeBalance + fee && t.creatorTaxBalance == s.creatorTaxBalance + tax
    && Earmarked(c, s.buybackEnabled, fee, t.buybackQuoteBalance - s.buybackQuoteBalance)
    && t.feesCharged == s.feesCharged + fee + tax
    && t.protocolPaid == s.protocolPaid && t.creatorPaid == s.creatorPaid && t.buybackSpent == s.buybackSpent
    && t.buybackEnabled == s.buybackEnabled && t.graduated == s.graduated
  }

  lemma AccrualIsBooked(c: Config, s: State, t: State, fee: nat, tax: nat)
    requires c.Valid()
    requires t == AccrueFees(c, s, fee, tax).(trackedQuote := t.trackedQuote, trackedTokens := t.trackedTokens,
                                              held := t.held, circulation := t.circulation)
    ensures Booked(c, s, t, fee, tax)
  {
    var share := ProtocolShare(c, fee);
    assert IsFloor(share, fee * c.protocolFeeShareBps, BPS);
    MulDivUnique(0, c.protocolFeeShareBps, BPS, 0);
    MulDivUnique(0, c.buybackBurnBps, BPS, 0);
  }

  /**
   The rate of the snipe tax: nothing for an exempt buyer, without a tax or after its window; otherwise the starting
   rate halved, floored, once for every fourteenth of the window gone, and never so much that less than 1% is left.
   */
  ghost predicate SnipeRate(c: Config, elapsed: nat, exempt: bool, rate: nat) {
    if exempt || c.snipeTaxStartBps == 0 || c.snipeTaxSeconds <= elapsed then rate == 0
    else
      exists halvings: nat, decayed: nat ::
        && IsFloor(halvings, elapsed * 14, c.snipeTaxSeconds)
        && IsFloor(decayed, c.snipeTaxStartBps, Pow2(halvings))
        && rate == (if c.feeBps + c.creatorTaxBps + decayed <= 9_900 then decayed
                    else 9_900 - c.feeBps - c.creatorTaxBps)
  }

  lemma SnipeBpsIsTheRate(c: Config, elapsed: nat, exempt: bool)
    requires c.Valid()
    ensures SnipeRate(c, elapsed, exempt, SnipeBps(c, elapsed, exempt))
  {
    if !exempt && c.snipeTaxStartBps != 0 && elapsed < c.snipeTaxSeconds {
      var halvings := MulDiv(elapsed, 14, c.snipeTaxSeconds);
      DivBounds(c.snipeTaxStartBps, Pow2(halvings));
      var decayed := c.snipeTaxStartBps / Pow2(halvings);
      assert IsFloor(halvings, elapsed * 14, c.snipeTaxSeconds) && IsFloor(decayed, c.snipeTaxStartBps, Pow2(halvings));
    }
  }

  // ---- Sales ----

  /**
   A sale of `tokensIn` takes from the real reserve the constant-product price rounded down, books the two floored
   charges on it, and pays the seller all the rest.
   */
  ghost predicate Sold(c: Config, s: State, t: State, tokensIn: nat, paid: nat, gross: nat, fee: nat, tax: nat) {
    var x := c.phantomQuote + s.trackedQuote - s.quoteFeeBalance - s.creatorTaxBalance;
    && IsFloor(gross, x * tokensIn, s.trackedTokens + tokensIn)
    && IsFloor(fee, gross * c.feeBps, BPS) && IsFloor(tax, gross * c.creatorTaxBps, BPS)
    && paid == gross - fee - tax
    && Booked(c, s, t, fee, tax)
    && t.trackedQuote == s.trackedQuote - paid && t.held == s.held - paid
    && t.trackedTokens == s.trackedTokens + tokensIn && t.circulation == s.circulation - tokensIn
  }

  lemma SalePays(c: Config, s: State, tokensIn: nat, minOut: nat) returns (gross: nat, fee: nat, tax: nat)
    requires c.Valid() && Reachable(c, s)
    ensures var r := Sell(c, s, tokensIn, minOut);
            && (r.Success? <==>
                  && !s.graduated && c.Reserved() < s.trackedTokens
                  && 0 < tokensIn <= s.circulation && 0 < gross && minOut <= gross - fee - tax)
            && (r.Success? ==> Sold(c, s, r.value.0, tokensIn, r.value.1, gross, fee, tax))
  {
    hide Reachable;
    ReachableKeepsInv(c, s);
    gross, fee, tax := 0, 0, 0;
    if !s.graduated && 0 < tokensIn <= s.circulation {
      gross, fee, tax := TradingSalePays(c, s, tokensIn, minOut);
    }
  }

  lemma TradingSalePays(c: Config, s: State, tokensIn: nat, minOut: nat) returns (gross: nat, fee: nat, tax: nat)
    requires Inv(c, s) && !s.graduated && 0 < tokensIn <= s.circulation
    ensures var r := Sell(c, s, tokensIn, minOut);
            && (r.Success? <==> c.Reserved() < s.trackedTokens && 0 < gross && minOut <= gross - fee - tax)
            && (r.Success? ==> Sold(c, s, r.value.0, tokensIn, r.value.1, gross, fee, tax))
  {
    hide FeeInv, Booked;
    AcceptedEconomics(c);
    SaleStaysAboveVirtualReserve(c, s, tokensIn);
    FeeFreeAmountOut(tokensIn, s.trackedTokens, QuoteReserve(c, s));
    gross := RawAmountOut(tokensIn, s.trackedTokens, QuoteReserve(c, s), 0);
    var charges := ChargesOn(c, gross, 0);
    fee, tax := charges.fee, charges.tax;
    var r := Sell(c, s, tokensIn, minOut);
    if r.Success? {
      AccrualIsBooked(c, s, r.value.0, fee, tax);
    }
  }

  // ---- Buys ----

  ghost predicate RightCharges(c: Config, rate: nat, spent: nat, charges: Charges) {
    && IsFloor(charges.fee, spent * c.feeBps, BPS) && IsFloor(charges.tax, spent * c.creatorTaxBps, BPS)
    && IsFloor(charges.snipe, spent * rate, BPS)
  }

  /**
   The spend of a buy that would take more than is for sale: the least one whose kept part, at the exact rates, covers
   the price of all that is for sale, the floored constant-product ask and one, or all that was received.
   */
  ghost predicate LeastSpend(c: Config, s: State, received: nat, rate: nat, spent: nat) {
    var x := c.phantomQuote + s.trackedQuote - s.quoteFeeBalance - s.creatorTaxBalance;
    var left := BPS - c.feeBps - c.creatorTaxBps - rate;
    && spent <= received
    && exists ask: nat ::
         && IsFloor(ask - 1, x * SellableOf(c, s), s.trackedTokens - SellableOf(c, s))
         && (spent == received || ask * BPS <= spent * left)
         && (0 < spent ==> (spent - 1) * left < ask * BPS)
  }

  /** What is for sale: the tokens above the floored share that the phantom quote has of the terminal quote. */
  ghost function SellableOf(c: Config, s: State): int {
    if 0 < c.phantomQuote + c.graduationThreshold then s.trackedTokens - c.Reserved() else 0
  }

  /** What `received` would buy if there were enough. */
  ghost predicate Wants(c: Config, s: State, rate: nat, received: nat, wants: nat) {
    var x := c.phantomQuote + s.trackedQuote - s.quoteFeeBalance - s.creatorTaxBalance;
    exists whole: Charges ::
      && RightCharges(c, rate, received, whole)
      && IsFloor(wants, s.trackedTokens * (received - whole.Total()), x + received - whole.Total())
  }

  ghost predicate RightFill(c: Config, s: State, received: nat, rate: nat, wants: nat, fill: Fill) {
    && Wants(c, s, rate, received, wants)
    && RightCharges(c, rate, fill.spent, fill.charges)
    && (if wants <= SellableOf(c, s) then fill.spent == received && fill.tokensOut == wants
        else fill.tokensOut == SellableOf(c, s) && LeastSpend(c, s, received, rate, fill.spent))
  }

  /**
   A buy: three floored charges on what it spends, the snipe tax among the fees and not the creator's tax, and the
   constant-product tokens for the rest; the last of them for no more than they cost.
   */
  lemma BuyPays(c: Config, s: State, received: nat, minOut: nat, elapsed: nat, exempt: bool)
    returns (rate: nat, wants: nat, fill: Fill)
    requires c.Valid() && Reachable(c, s)
    ensures SnipeRate(c, elapsed, exempt, rate)
    ensures var r := Buy(c, s, received, minOut, elapsed, exempt);
            && (r.Success? <==>
                  && !s.graduated && 0 < received && 0 < SellableOf(c, s) && 0 < wants
                  && fill.spent * minOut <= received * fill.tokensOut)
            && (r.Success? ==> RightFill(c, s, received, rate, wants, fill) && Bought(c, s, r.value.0, fill))
  {
    hide Reachable, RightFill, Bought, SnipeRate, FillFor, SnipeBps, BookFill;
    ReachableKeepsInv(c, s);
    SnipeBpsIsTheRate(c, elapsed, exempt);
    rate, wants, fill := SnipeBps(c, elapsed, exempt), 0, Fill(0, Charges(0, 0, 0), 0);
    if SellableOf(c, s) <= 0 {
      NothingForSale(c, s, received, rate);
    } else if !s.graduated && 0 < received {
      wants, fill := FillIsRight(c, s, received, rate);
      if 0 < wants {
        FillIsBooked(c, s, fill);
      }
    }
  }

  lemma NothingForSale(c: Config, s: State, received: nat, rate: nat)
    requires c.Valid() && c.feeBps + c.creatorTaxBps + rate <= BPS - 100 && SellableOf(c, s) <= 0
    ensures FillFor(c, s, received, rate).Failure?
  {
  }

  /** What a fill moves. */
  ghost predicate Bought(c: Config, s: State, t: State, fill: Fill) {
    && Booked(c, s, t, fill.charges.fee + fill.charges.snipe, fill.charges.tax)
    && t.trackedQuote == s.trackedQuote + fill.spent && t.held == s.held + fill.spent
    && t.trackedTokens == s.trackedTokens - fill.tokensOut && t.circulation == s.circulation + fill.tokensOut
  }

  lemma FillIsBooked(c: Config, s: State, fill: Fill)
    requires c.Valid() && fill.tokensOut <= s.trackedTokens
    ensures Bought(c, s, BookFill(c, s, fill), fill)
  {
    hide Booked;
    AccrualIsBooked(c, s, BookFill(c, s, fill), fill.charges.fee + fill.charges.snipe, fill.charges.tax);
  }

  lemma FillIsRight(c: Config, s: State, received: nat, rate: nat) returns (wants: nat, fill: Fill)
    requires c.Valid() && TradingInv(c, s) && 0 < SellableOf(c, s)
    requires c.feeBps + c.creatorTaxBps + rate <= BPS - 100
    ensures FillFor(c, s, received, rate).Success? <==> 0 < wants
    ensures 0 < wants ==> FillFor(c, s, received, rate) == Success(fill) && RightFill(c, s, received, rate, wants, fill)
                          && fill.tokensOut <= s.trackedTokens
  {
    hide LeastSpend, Wants, Product, FeeInv;
    TradingReserves(c, s);
    var x, y, sellable: nat := QuoteReserve(c, s), s.trackedTokens, SellableOf(c, s);
    var whole := ChargesOn(c, received, rate);
    var kept: nat := received - whole.Total();
    wants := MulDiv(y, kept, x + kept);
    fill := Fill(received, whole, wants);
    WholeIsWanted(c, s, received, rate);
    if 0 < wants && sellable < wants {
      AcceptedEconomics(c);
      FeeFreeAmountIn(sellable, x, y);
      var ask := MulDiv(x, sellable, y - sellable) + 1;
      var spent := Min(MulDivUp(ask, BPS, BPS - c.feeBps - c.creatorTaxBps - rate), received);
      fill := Fill(spent, ChargesOn(c, spent, rate), sellable);
      AskIsLeast(c, s, received, rate, ask);
    }
  }

  lemma WholeIsWanted(c: Config, s: State, received: nat, rate: nat)
    requires c.Valid() && c.feeBps + c.creatorTaxBps + rate <= BPS - 100 && 0 < QuoteReserve(c, s)
    ensures var kept := received - ChargesOn(c, received, rate).Total();
            var wants := MulDiv(s.trackedTokens, kept, QuoteReserve(c, s) + kept);
            && Wants(c, s, rate, received, wants)
            && RawAmountOut(kept, QuoteReserve(c, s), s.trackedTokens, 0) == wants
            && (kept == 0 ==> wants == 0)
  {
    var whole := ChargesOn(c, received, rate);
    var kept: nat := received - whole.Total();
    assert RightCharges(c, rate, received, whole);
    FeeFreeAmountOut(kept, QuoteReserve(c, s), s.trackedTokens);
    if kept == 0 {
      MulDivUnique(s.trackedTokens, 0, QuoteReserve(c, s), 0);
    }
  }

  lemma AskIsLeast(c: Config, s: State, received: nat, rate: nat, ask: nat)
    requires c.Valid() && 0 < SellableOf(c, s) < s.trackedTokens && 0 < ask && 0 <= QuoteReserve(c, s)
    requires c.feeBps + c.creatorTaxBps + rate <= BPS - 100
    requires IsFloor(ask - 1, QuoteReserve(c, s) * SellableOf(c, s), s.trackedTokens - SellableOf(c, s))
    ensures LeastSpend(c, s, received, rate,
                       Min(MulDivUp(ask, BPS, BPS - c.feeBps - c.creatorTaxBps - rate), received))
  {
    var left := BPS - c.feeBps - c.creatorTaxBps - rate;
    var full := MulDivUp(ask, BPS, left);
    var spent := Min(full, received);
    Distribute(full, 1, left);
    if 0 < spent {
      MulLe(spent - 1, full - 1, left);
    }
  }

  // ---- Sweeps ----

  /**
   Whether a sweep buys back: something is earmarked and still in the bucket, its price impact stays within the
   launch's bound, and it buys at least one token out of those for sale.
   */
  ghost predicate BuysBack(c: Config, s: State, slice: nat, locked: nat) {
    var x := c.phantomQuote + s.trackedQuote - s.quoteFeeBalance - s.creatorTaxBalance;
    && 0 < slice && slice * BPS < (c.maxInternalPriceImpactBps + 1) * (x + slice)
    && 0 < locked <= SellableOf(c, s)
  }

  /** The executed part of a buyback, in quote and in tokens. */
  ghost function Executed(c: Config, s: State, slice: nat, locked: nat): (nat, nat) {
    if BuysBack(c, s, slice, locked) then (slice, locked) else (0, 0)
  }

  /** The protocol's floored share, what would be bought back, and the constant-product tokens that would lock. */
  ghost predicate Shares(c: Config, s: State, execute: bool, share: nat, slice: nat, locked: nat) {
    var x := c.phantomQuote + s.trackedQuote - s.quoteFeeBalance - s.creatorTaxBalance;
    && IsFloor(share, s.quoteFeeBalance * c.protocolFeeShareBps, BPS) && share <= s.quoteFeeBalance
    && slice == (if execute then Min(s.buybackQuoteBalance, s.quoteFeeBalance - share) else 0)
    && IsFloor(locked, s.trackedTokens * slice, x + slice)
  }

  /**
   A sweep: the protocol gets its share of the pending fees, the buyback its slice of the rest when it may run, and
   the creator everything else with the tax. It fails only when a buyback is due and its caller names no minimum, or
   one that the tokens miss.
   */
  lemma SweepPays(c: Config, s: State, minOut: nat, execute: bool) returns (share: nat, slice: nat, locked: nat)
    requires c.Valid() && TradingInv(c, s) && FeeInv(c, s) && s.held == s.trackedQuote + s.donated
    ensures Shares(c, s, execute, share, slice, locked)
    ensures var r := Sweep(c, s, minOut, execute);
            && (r.Success? <==> slice == 0 || (minOut != 0 && (BuysBack(c, s, slice, locked) ==> minOut <= locked)))
            && (r.Success? ==>
                  var t, (spent, tokens) := r.value, Executed(c, s, slice, locked);
                  && t.protocolPaid == s.protocolPaid + share && t.buybackSpent == s.buybackSpent + spent
                  && t.creatorPaid == s.creatorPaid + s.quoteFeeBalance - share - spent + s.creatorTaxBalance
                  && t.trackedTokens == s.trackedTokens - tokens && t.circulation == s.circulation + tokens
                  && s.held - t.held == s.quoteFeeBalance + s.creatorTaxBalance - spent
                  && t.quoteFeeBalance == t.creatorTaxBalance == t.buybackQuoteBalance == 0
                  && t.graduated == s.graduated)
  {
    hide SplitPending, Product, TradingInv, BuysBack, Executed;
    SweepKeeps(c, s, minOut, execute);
    share, slice, locked := SplitIsRight(c, s, minOut, execute);
    MulDivUnique(0, c.protocolFeeShareBps, BPS, 0);
    if slice == 0 {
      assert Executed(c, s, slice, locked) == (0, 0) by { NothingExecuted(c, s, locked); }
    }
  }

  lemma NothingExecuted(c: Config, s: State, locked: nat)
    ensures Executed(c, s, 0, locked) == (0, 0)
  {
  }

  lemma SplitIsRight(c: Config, s: State, minOut: nat, execute: bool) returns (share: nat, slice: nat, locked: nat)
    requires c.Valid() && TradingInv(c, s)
    ensures Shares(c, s, execute, share, slice, locked)
    ensures var r := SplitPending(c, s, minOut, execute);
            var (spent, tokens) := Executed(c, s, slice, locked);
            && (r.Success? <==> slice == 0 || (minOut != 0 && (BuysBack(c, s, slice, locked) ==> minOut <= locked)))
            && (r.Success? ==>
                  r.value == Split(share, spent, s.quoteFeeBalance - share - spent + s.creatorTaxBalance, tokens))
  {
    hide Product;
    TradingReserves(c, s);
    var x: nat := QuoteReserve(c, s);
    share := ProtocolShare(c, s.quoteFeeBalance);
    slice := if execute then Min(s.buybackQuoteBalance, s.quoteFeeBalance - share) else 0;
    locked := MulDiv(s.trackedTokens, slice, x + slice);
    if slice != 0 {
      BuybackIsRight(c, s, slice);
    }
  }

  lemma TradingReserves(c: Config, s: State)
    requires c.Valid() && TradingInv(c, s)
    ensures 0 < QuoteReserve(c, s) && c.Reserved() <= s.trackedTokens
  {
    AcceptedEconomics(c);
  }

  lemma BuybackIsRight(c: Config, s: State, slice: nat)
    requires c.Valid() && 0 < QuoteReserve(c, s) && c.Reserved() <= s.trackedTokens && 0 < slice
    ensures var locked := MulDiv(s.trackedTokens, slice, QuoteReserve(c, s) + slice);
            BuybackTokens(c, s, slice) == if BuysBack(c, s, slice, locked) then locked else 0
  {
    var x: nat := QuoteReserve(c, s);
    FeeFreeAmountOut(slice, x, s.trackedTokens);
    ImpactBound(slice, x + slice, c.maxInternalPriceImpactBps);
  }

  lemma ImpactBound(slice: nat, d: nat, bound: nat)
    requires 0 < d
    ensures MulDiv(slice, BPS, d) <= bound <==> slice * BPS < (bound + 1) * d
  {
    var q := MulDiv(slice, BPS, d);
    Distribute(q, 1, d);
    if q <= bound {
      MulLe(q + 1, bound + 1, d);
    } else {
      MulLe(bound + 1, q, d);
    }
  }

  /** Who may sweep: the operator always, the creator only while nothing is earmarked; nobody once graduated. */
  lemma SweepFeesPays(c: Config, s: State, isOperator: bool, isCreator: bool, minOut: nat)
    returns (share: nat, slice: nat, locked: nat)
    requires c.Valid() && Reachable(c, s)
    ensures var r := SweepFees(c, s, isOperator, isCreator, minOut);
            && (r.Success? <==>
                  && !s.graduated && (isOperator || (isCreator && s.buybackQuoteBalance == 0))
                  && (slice == 0 || (minOut != 0 && (BuysBack(c, s, slice, locked) ==> minOut <= locked))))
            && (r.Success? ==>
                  && Shares(c, s, true, share, slice, locked)
                  && r.value.protocolPaid == s.protocolPaid + share
                  && r.value.buybackSpent == s.buybackSpent + Executed(c, s, slice, locked).0
                  && r.value.creatorPaid == s.creatorPaid + s.quoteFeeBalance + s.creatorTaxBalance - share
                                            - Executed(c, s, slice, locked).0
                  && r.value.trackedTokens == s.trackedTokens - Executed(c, s, slice, locked).1)
  {
    hide Reachable, Sweep, BuysBack, Executed, Shares;
    ReachableKeepsInv(c, s);
    share, slice, locked := 0, 0, 0;
    if !s.graduated {
      share, slice, locked := SweepPays(c, s, minOut, true);
    }
  }

  /** Graduation pays both parties the pending fees on the way, buying nothing back. */
  lemma GraduationPays(c: Config, s: State) returns (share: nat)
    requires c.Valid() && Reachable(c, s) && !s.graduated && s.trackedTokens <= c.Reserved()
    ensures IsFloor(share, s.quoteFeeBalance * c.protocolFeeShareBps, BPS)
    ensures var r := Graduate(c, s);
            && r.Success? && r.value.0.graduated
            && r.value.0.protocolPaid == s.protocolPaid + share
            && r.value.0.creatorPaid == s.creatorPaid + s.quoteFeeBalance - share + s.creatorTaxBalance
            && r.value.0.buybackSpent == s.buybackSpent
            && r.value.1 == (s.trackedQuote - s.quoteFeeBalance - s.creatorTaxBalance, c.Reserved())
            && s.held - r.value.0.held == s.trackedQuote
  {
    hide Reachable, Sweep;
    ReachableKeepsInv(c, s);
    GraduateKeeps(c, s);
    var slice, locked;
    share, slice, locked := SweepPays(c, s.(graduated := true), 0, false);
  }
}
