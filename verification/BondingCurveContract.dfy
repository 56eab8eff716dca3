/** src/v2/PonsV2BondingCurve.sol field by field; every method is proved against its BondingCurveModel transaction. */
module BondingCurveContract {
  import opened FloorMath
  import opened Outcomes
  import opened BondingCurveMath
  import opened Model = BondingCurveModel
  import opened Runs = BondingCurveRuns

  class PonsV2BondingCurve {
    const config: Config
    var trackedQuote: nat
    var trackedTokens: nat
    var quoteFeeBalance: nat
    var buybackQuoteBalance: nat
    var creatorTaxBalance: nat
    var buybackEnabled: bool
    var graduated: bool
    // The chain around the contract.
    var held: nat
    var circulation: nat
    // An observer's running totals.
    ghost var feesCharged: nat
    ghost var protocolPaid: nat
    ghost var creatorPaid: nat
    ghost var buybackSpent: nat
    ghost var donated: nat
    ghost var handedQuote: nat
    ghost var handedTokens: nat
    ghost var feeTrades: nat

    ghost function Snapshot(): State
      reads this
    {
      State(trackedQuote, trackedTokens, quoteFeeBalance, buybackQuoteBalance, creatorTaxBalance,
            buybackEnabled, graduated, held, circulation,
            feesCharged, protocolPaid, creatorPaid, buybackSpent, donated, handedQuote, handedTokens, feeTrades)
    }

    ghost predicate Valid()
      reads this
    {
      Inv(config, Snapshot())
    }

    constructor (config: Config, buybackEnabled: bool)
      requires config.Valid()
      ensures this.config == config && Snapshot() == Fresh(config, buybackEnabled) && Valid()
    {
      this.config := config;
      trackedQuote, trackedTokens := 0, config.supply;
      quoteFeeBalance, buybackQuoteBalance, creatorTaxBalance := 0, 0, 0;
      this.buybackEnabled, graduated := buybackEnabled, false;
      held, circulation := 0, 0;
      feesCharged, protocolPaid, creatorPaid, buybackSpent, donated := 0, 0, 0, 0, 0;
      handedQuote, handedTokens, feeTrades := 0, 0, 0;
      new;
      ReachableInv(config, buybackEnabled, []);
    }

    method AccrueFees(fee: nat, tax: nat)
      requires config.Valid()
      modifies `quoteFeeBalance, `creatorTaxBalance, `buybackQuoteBalance, `feesCharged, `feeTrades
      ensures Snapshot() == Model.AccrueFees(config, old(Snapshot()), fee, tax)
    {
      quoteFeeBalance := quoteFeeBalance + fee;
      creatorTaxBalance := creatorTaxBalance + tax;
      feesCharged := feesCharged + fee + tax;
      if fee != 0 {
        feeTrades := feeTrades + 1;
      }
      if buybackEnabled && fee != 0 {
        var creatorSlice := CreatorBucket(config, fee);
        buybackQuoteBalance := buybackQuoteBalance + MulDiv(creatorSlice, config.buybackBurnBps, BPS);
      }
    }

    /** The first half of `buy`: what is filled, charged and taken. */
    method DecideFill(received: nat, snipeTaxBps: nat) returns (r: Result<Fill, Error>)
      requires config.Valid() && config.feeBps + config.creatorTaxBps + snipeTaxBps <= BPS - 100
      ensures r == FillFor(config, Snapshot(), received, snipeTaxBps)
    {
      if config.phantomQuote + trackedQuote < quoteFeeBalance + creatorTaxBalance {
        return Failure(Underflow);
      }
      var quoteReserveBefore: nat := config.phantomQuote + trackedQuote - quoteFeeBalance - creatorTaxBalance;
      var spent := received;
      var charges := ChargesOn(config, spent, snipeTaxBps);
      var quoted := GetAmountOut(spent - charges.Total(), quoteReserveBefore, trackedTokens, 0);
      if quoted.Failure? {
        return Failure(Math(quoted.error));
      }
      var tokensOut := quoted.value;
      var sellable := SellableNow();
      if sellable == 0 {
        return Failure(CurveGraduated);
      }
      if sellable < tokensOut {
        tokensOut := sellable;
        var net := GetAmountIn(sellable, quoteReserveBefore, trackedTokens, 0);
        if net.Failure? {
          return Failure(Math(net.error));
        }
        spent := Min(MulDivUp(net.value, BPS, BPS - config.feeBps - config.creatorTaxBps - snipeTaxBps), received);
        charges := ChargesOn(config, spent, snipeTaxBps);
      }
      return Success(Fill(spent, charges, tokensOut));
    }

    method Buy(received: nat, minTokensOut: nat, elapsed: nat, exempt: bool) returns (r: Result<Fill, Error>)
      requires config.Valid()
      modifies this
      ensures Realizes(Model.Buy(config, old(Snapshot()), received, minTokensOut, elapsed, exempt),
                       old(Snapshot()), Snapshot(), r)
      ensures old(Valid()) ==> Valid()
    {
      if Inv(config, Snapshot()) {
        BuyKeeps(config, Snapshot(), received, minTokensOut, elapsed, exempt);
      }
      r := PlaceOrder(received, minTokensOut, elapsed, exempt);
    }

    method PlaceOrder(received: nat, minTokensOut: nat, elapsed: nat, exempt: bool) returns (r: Result<Fill, Error>)
      requires config.Valid()
      modifies this
      ensures Realizes(Model.Buy(config, old(Snapshot()), received, minTokensOut, elapsed, exempt),
                       old(Snapshot()), Snapshot(), r)
    {
      if graduated {
        return Failure(CurveGraduated);
      }
      if received == 0 {
        return Failure(ZeroAmount);
      }
      var snipeTaxBps := CurrentSnipeTaxBps(config, elapsed, exempt);
      if snipeTaxBps != 0 {
        var maxSnipeTaxBps := BPS - config.feeBps - config.creatorTaxBps - 100;
        if maxSnipeTaxBps < snipeTaxBps {
          snipeTaxBps := maxSnipeTaxBps;
        }
      }
      assert snipeTaxBps == SnipeBps(config, elapsed, exempt);
      var fill := DecideFill(received, snipeTaxBps);
      if fill.Failure? {
        return Failure(fill.error);
      }
      var Fill(spent, charges, tokensOut) := fill.value;
      if received * tokensOut < spent * minTokensOut {
        return Failure(SlippageExceeded);
      }
      if trackedTokens < tokensOut {
        return Failure(Underflow);
      }
      BookFill(fill.value);
      return Success(fill.value);
    }

    method BookFill(fill: Fill)
      requires config.Valid() && fill.tokensOut <= trackedTokens
      modifies this
      ensures Snapshot() == Model.BookFill(config, old(Snapshot()), fill)
    {
      AccrueFees(fill.charges.fee + fill.charges.snipe, fill.charges.tax);
      trackedQuote := trackedQuote + fill.spent;
      trackedTokens := trackedTokens - fill.tokensOut;
      held, circulation := held + fill.spent, circulation + fill.tokensOut;
    }

    method SellableNow() returns (sellable: nat)
      requires config.Valid()
      ensures sellable == SellableTokens(config, Snapshot())
    {
      sellable := if config.Reserved() < trackedTokens then trackedTokens - config.Reserved() else 0;
    }

    method DecideSale(tokensIn: nat) returns (r: Result<Proceeds, Error>)
      requires config.Valid()
      ensures r == ProceedsFor(config, Snapshot(), tokensIn)
    {
      if config.phantomQuote + trackedQuote < quoteFeeBalance + creatorTaxBalance {
        return Failure(Underflow);
      }
      var quoteReserveBefore: nat := config.phantomQuote + trackedQuote - quoteFeeBalance - creatorTaxBalance;
      var gross := GetAmountOut(tokensIn, trackedTokens, quoteReserveBefore, 0);
      if gross.Failure? {
        return Failure(Math(gross.error));
      }
      var charges := ChargesOn(config, gross.value, 0);
      return Success(Proceeds(charges, gross.value - charges.fee - charges.tax));
    }

    method BookSale(tokensIn: nat, sale: Proceeds)
      requires config.Valid() && sale.quoteOut <= trackedQuote && sale.quoteOut <= held && tokensIn <= circulation
      modifies this
      ensures Snapshot() == Model.BookSale(config, old(Snapshot()), tokensIn, sale)
    {
      AccrueFees(sale.charges.fee, sale.charges.tax);
      trackedQuote := trackedQuote - sale.quoteOut;
      trackedTokens := trackedTokens + tokensIn;
      held, circulation := held - sale.quoteOut, circulation - tokensIn;
    }

    method Sell(tokensIn: nat, minQuoteOut: nat) returns (r: Result<nat, Error>)
      requires config.Valid()
      modifies this
      ensures Realizes(Model.Sell(config, old(Snapshot()), tokensIn, minQuoteOut), old(Snapshot()), Snapshot(), r)
      ensures old(Valid()) ==> Valid()
    {
      if Inv(config, Snapshot()) {
        SellKeeps(config, Snapshot(), tokensIn, minQuoteOut);
      }
      r := CloseSale(tokensIn, minQuoteOut);
    }

    method CloseSale(tokensIn: nat, minQuoteOut: nat) returns (r: Result<nat, Error>)
      requires config.Valid()
      modifies this
      ensures Realizes(Model.Sell(config, old(Snapshot()), tokensIn, minQuoteOut), old(Snapshot()), Snapshot(), r)
    {
      var sellable := SellableNow();
      if graduated || sellable == 0 {
        return Failure(CurveGraduated);
      }
      if tokensIn == 0 {
        return Failure(ZeroAmount);
      }
      if circulation < tokensIn {
        return Failure(TransferFailed);
      }
      var sale := DecideSale(tokensIn);
      if sale.Failure? {
        return Failure(sale.error);
      }
      var quoteOut := sale.value.quoteOut;
      if quoteOut < minQuoteOut {
        return Failure(SlippageExceeded);
      }
      if trackedQuote < quoteOut {
        return Failure(Underflow);
      }
      if held < quoteOut {
        return Failure(TransferFailed);
      }
      BookSale(tokensIn, sale.value);
      return Success(quoteOut);
    }

    /** The first half of `_sweepFees`: who gets what, and what the buyback locks. */
    method DecideSplit(minBuybackTokensOut: nat, executeBuyback: bool) returns (r: Result<Split, Error>)
      requires config.Valid()
      ensures r == SplitPending(config, Snapshot(), minBuybackTokensOut, executeBuyback)
    {
      var pending, tax := quoteFeeBalance, creatorTaxBalance;
      var protocolAmount := ProtocolShare(config, pending);
      var creatorBucket := pending - protocolAmount;
      var buybackAmount := if executeBuyback then Min(buybackQuoteBalance, creatorBucket) else 0;
      var creatorAmount := creatorBucket - buybackAmount + tax;
      var tokensLocked := 0;
      if buybackAmount != 0 {
        if minBuybackTokensOut == 0 {
          return Failure(MinimumOutputRequired);
        }
        if config.phantomQuote + trackedQuote < quoteFeeBalance + creatorTaxBalance {
          return Failure(Underflow);
        }
        var quoteReserve: nat := config.phantomQuote + trackedQuote - quoteFeeBalance - creatorTaxBalance;
        var reserveMovementBps := MulDiv(buybackAmount, BPS, quoteReserve + buybackAmount);
        if reserveMovementBps <= config.maxInternalPriceImpactBps {
          var tokensOut := QuoteAmountOut(buybackAmount, quoteReserve, trackedTokens, 0);
          var sellable := SellableNow();
          if tokensOut != 0 && tokensOut <= sellable {
            tokensLocked := tokensOut;
          }
        }
        if tokensLocked == 0 {
          creatorAmount := creatorAmount + buybackAmount;
          buybackAmount := 0;
        } else if tokensLocked < minBuybackTokensOut {
          return Failure(SlippageExceeded);
        }
      }
      return Success(Split(protocolAmount, buybackAmount, creatorAmount, tokensLocked));
    }

    /** The second half: clear the pending balances and pay the split out. */
    method Settle(split: Split) returns (r: Result<Unit, Error>)
      modifies this
      ensures RealizesUnit(PayOut(old(Snapshot()), split), old(Snapshot()), Snapshot(), r)
    {
      var out := split.protocolAmount + split.creatorAmount;
      if trackedQuote < out || trackedTokens < split.tokensLocked {
        return Failure(Underflow);
      }
      if held < out {
        return Failure(TransferFailed);
      }
      quoteFeeBalance, buybackQuoteBalance, creatorTaxBalance := 0, 0, 0;
      feeTrades := 0;
      trackedQuote := trackedQuote - out;
      trackedTokens := trackedTokens - split.tokensLocked;
      held, circulation := held - out, circulation + split.tokensLocked;
      Observe(split);
      return Success(Unit);
    }

    /** The observer's totals of what splits paid. */
    method Observe(split: Split)
      modifies `protocolPaid, `creatorPaid, `buybackSpent
      ensures var s := old(Snapshot());
              Snapshot() == s.(protocolPaid := s.protocolPaid + split.protocolAmount,
                               creatorPaid := s.creatorPaid + split.creatorAmount,
                               buybackSpent := s.buybackSpent + split.buybackAmount)
    {
      protocolPaid := protocolPaid + split.protocolAmount;
      creatorPaid := creatorPaid + split.creatorAmount;
      buybackSpent := buybackSpent + split.buybackAmount;
    }

    /** _sweepFees; private, and shared by the public sweep and by graduation. */
    method Sweep(minBuybackTokensOut: nat, executeBuyback: bool) returns (r: Result<Unit, Error>)
      requires config.Valid()
      modifies this
      ensures RealizesUnit(Model.Sweep(config, old(Snapshot()), minBuybackTokensOut, executeBuyback),
                           old(Snapshot()), Snapshot(), r)
    {
      if quoteFeeBalance == 0 && creatorTaxBalance == 0 {
        return Success(Unit);
      }
      var split := DecideSplit(minBuybackTokensOut, executeBuyback);
      if split.Failure? {
        return Failure(split.error);
      }
      r := Settle(split.value);
    }

    method SweepFees(isOperator: bool, isCreator: bool, minBuybackTokensOut: nat) returns (r: Result<Unit, Error>)
      requires config.Valid()
      modifies this
      ensures RealizesUnit(Model.SweepFees(config, old(Snapshot()), isOperator, isCreator, minBuybackTokensOut),
                           old(Snapshot()), Snapshot(), r)
      ensures old(Valid()) ==> Valid()
    {
      if Inv(config, Snapshot()) {
        StepKeeps(config, Snapshot(), OpSweepFees(isOperator, isCreator, minBuybackTokensOut));
      }
      if graduated {
        return Failure(AlreadyGraduated);
      }
      if !isOperator && !isCreator {
        return Failure(NotFeeSweepOperator);
      }
      if !isOperator && buybackQuoteBalance != 0 {
        return Failure(InternalSwapRequiresOperator);
      }
      r := Sweep(minBuybackTokensOut, true);
    }

    method RescueFees() returns (r: Result<Unit, Error>)
      requires config.Valid()
      modifies this
      ensures RealizesUnit(Model.RescueFees(config, old(Snapshot())), old(Snapshot()), Snapshot(), r)
      ensures old(Valid()) ==> Valid()
    {
      if Inv(config, Snapshot()) {
        StepKeeps(config, Snapshot(), OpRescueFees);
      }
      var pending, tax := quoteFeeBalance, creatorTaxBalance;
      if pending == 0 && tax == 0 {
        return Failure(ZeroAmount);
      }
      var protocolAmount := ProtocolShare(config, pending);
      var creatorAmount := pending - protocolAmount + tax;
      r := Settle(Split(protocolAmount, 0, creatorAmount, 0));
    }

    method SetBuybackEnabled(enabled: bool)
      requires Valid()
      modifies `buybackEnabled
      ensures Valid() && Snapshot() == Step(config, old(Snapshot()), OpSetBuybackEnabled(enabled))
    {
      buybackEnabled := enabled;
    }

    method HandOver() returns (quoteOut: nat, tokenOut: nat)
      requires trackedQuote <= held
      modifies this
      ensures Model.HandOver(old(Snapshot())) == Success((Snapshot(), (quoteOut, tokenOut)))
    {
      quoteOut := trackedQuote;
      trackedQuote := 0;
      tokenOut := trackedTokens;
      trackedTokens := 0;
      held, circulation := held - quoteOut, circulation + tokenOut;
      handedQuote, handedTokens := quoteOut, tokenOut;
    }

    /** The curve's own balance always backs its tracked quote; see `VirtualReserveNeverPaidOut`. */
    method Graduate() returns (r: Result<(nat, nat), Error>)
      requires config.Valid() && trackedQuote <= held
      modifies this
      ensures Realizes(Model.Graduate(config, old(Snapshot())), old(Snapshot()), Snapshot(), r)
      ensures old(Valid()) ==> Valid()
    {
      if Inv(config, Snapshot()) {
        StepKeeps(config, Snapshot(), OpGraduate);
      }
      if graduated {
        return Failure(AlreadyGraduated);
      }
      var sellable := SellableNow();
      if sellable != 0 {
        return Failure(NotReadyToGraduate);
      }
      graduated := true;
      SweepStaysBacked(config, Snapshot());
      var swept := Sweep(0, false);
      if swept.Failure? {
        graduated := false;
        return Failure(swept.error);
      }
      var quoteOut, tokenOut := HandOver();
      return Success((quoteOut, tokenOut));
    }
  }

  /** A sweep takes as much off the tracked quote as off the balance behind it. */
  lemma SweepStaysBacked(c: Config, s: State)
    requires c.Valid() && s.trackedQuote <= s.held
    ensures var r := Model.Sweep(c, s, 0, false);
            r.Success? ==> r.value.trackedQuote <= r.value.held
  {
  }
}
