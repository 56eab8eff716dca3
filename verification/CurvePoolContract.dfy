/** src/CurvePool.sol field by field; every method is proved against its transaction in CurvePoolModel. */
module CurvePoolContract {
  import opened FloorMath
  import opened Outcomes
  import opened Model = CurvePoolModel

  class CurvePool {
    const config: Config
    var realUsdc: nat
    var tokenReserve: nat
    var creatorFees: nat
    var protocolFees: nat
    var graduated: bool
    // The chain around the contract.
    var balance: nat
    var circulation: nat
    ghost var tradersIn: nat
    ghost var tradersOut: nat
    ghost var feesOut: nat
    ghost var forcedIn: nat

    ghost function Snapshot(): State
      reads this
    {
      State(realUsdc, tokenReserve, creatorFees, protocolFees, graduated,
            balance, circulation, tradersIn, tradersOut, feesOut, forcedIn)
    }

    ghost predicate Valid()
      reads this
    {
      config.Valid() && Inv(config, Snapshot())
    }

    /** Construction and `initialize` by the factory, in one transaction. */
    constructor (config: Config)
      requires config.Valid()
      ensures this.config == config && Snapshot() == Launch(config) && Valid()
    {
      this.config := config;
      realUsdc, tokenReserve, creatorFees, protocolFees, graduated := 0, config.supply, 0, 0, false;
      balance, circulation := 0, 0;
      tradersIn, tradersOut, feesOut, forcedIn := 0, 0, 0, 0;
    }

    method AccrueFee(fee: nat)
      requires config.Valid()
      modifies `creatorFees, `protocolFees
      ensures Snapshot() == Model.AccrueFee(config, old(Snapshot()), fee)
    {
      if fee == 0 {
        return;
      }
      ShareOfWhole(fee, config.creatorShareBps, BPS);
      var toCreator := MulDiv(fee, config.creatorShareBps, BPS);
      creatorFees := creatorFees + toCreator;
      protocolFees := protocolFees + (fee - toCreator);
    }

    method Buy(value: nat, minTokensOut: nat, expired: bool) returns (r: Result<nat, Error>)
      requires Valid()
      modifies this
      ensures Valid()
      ensures Realizes(Model.Buy(config, old(Snapshot()), value, minTokensOut, expired),
                       old(Snapshot()), Snapshot(), r)
    {
      hide Inv;
      BuyKeeps(config, Snapshot(), value, minTokensOut, expired);
      if expired {
        return Failure(Expired);
      }
      if value == 0 {
        return Failure(ZeroIn);
      }
      var fee := Fee(config, value);
      var netIn := value - fee;
      var tokensOut := MulDiv(tokenReserve, netIn, config.virtualUsdc + realUsdc + netIn);
      if tokensOut == 0 || tokensOut < minTokensOut {
        return Failure(Slippage);
      }
      balance, tradersIn := balance + value, tradersIn + value;
      realUsdc := realUsdc + netIn;
      tokenReserve := tokenReserve - tokensOut;
      AccrueFee(fee);
      circulation := circulation + tokensOut;
      if !graduated && config.graduationReserve <= realUsdc {
        graduated := true;
      }
      return Success(tokensOut);
    }

    method Sell(tokensIn: nat, minUsdcOut: nat, expired: bool) returns (r: Result<nat, Error>)
      requires Valid()
      modifies this
      ensures Valid()
      ensures Realizes(Model.Sell(config, old(Snapshot()), tokensIn, minUsdcOut, expired),
                       old(Snapshot()), Snapshot(), r)
    {
      SellKeeps(config, Snapshot(), tokensIn, minUsdcOut, expired);
      if expired {
        return Failure(Expired);
      }
      if tokensIn == 0 {
        return Failure(ZeroIn);
      }
      var gross := MulDiv(config.virtualUsdc + realUsdc, tokensIn, tokenReserve + tokensIn);
      if realUsdc < gross {
        return Failure(ExceedsRealReserve);
      }
      var fee := Fee(config, gross);
      var usdcOut := gross - fee;
      if usdcOut < minUsdcOut {
        return Failure(Slippage);
      }
      if circulation < tokensIn {
        return Failure(TokenPullFailed);
      }
      realUsdc := realUsdc - gross;
      tokenReserve := tokenReserve + tokensIn;
      AccrueFee(fee);
      circulation := circulation - tokensIn;
      balance, tradersOut := balance - usdcOut, tradersOut + usdcOut;
      return Success(usdcOut);
    }

    method ClaimCreatorFees() returns (r: Result<nat, Error>)
      requires Valid()
      modifies this
      ensures Valid()
      ensures Realizes(Model.ClaimCreatorFees(old(Snapshot())), old(Snapshot()), Snapshot(), r)
    {
      var amount := creatorFees;
      if amount == 0 {
        return Failure(NothingToClaim);
      }
      creatorFees := 0;
      balance, feesOut := balance - amount, feesOut + amount;
      return Success(amount);
    }

    method ClaimProtocolFees() returns (r: Result<nat, Error>)
      requires Valid()
      modifies this
      ensures Valid()
      ensures Realizes(Model.ClaimProtocolFees(old(Snapshot())), old(Snapshot()), Snapshot(), r)
    {
      var amount := protocolFees;
      if amount == 0 {
        return Failure(NothingToClaim);
      }
      protocolFees := 0;
      balance, feesOut := balance - amount, feesOut + amount;
      return Success(amount);
    }
  }
}
