/**
 src/v2/PonsV2BondingCurve.sol: a constant-product curve with a virtual quote reserve, three stacked fees,
 clamped last fills, an internal buyback inside the fee sweep and a reserved graduation allocation. Each
 transaction is a function from state to state; BondingCurveRuns.dfy proves what every run of them keeps.
 */
module BondingCurveModel {
  import opened FloorMath
  import opened Outcomes
  import opened BondingCurveMath

  /** Terms frozen at construction and `initialize`. `supply` is the minted supply, all of it held by the curve. */
  datatype Config = Config(
    phantomQuote: nat, graduationThreshold: nat, supply: nat,
    feeBps: nat, creatorTaxBps: nat,
    protocolFeeShareBps: nat, buybackBurnBps: nat, maxInternalPriceImpactBps: nat,
    snipeTaxStartBps: nat, snipeTaxSeconds: nat
  ) {
    predicate ValidPolicy() {
      && protocolFeeShareBps <= BPS && buybackBurnBps <= BPS
      && 0 < maxInternalPriceImpactBps < BPS
      && feeBps + creatorTaxBps <= 2000
    }

    predicate ValidEconomics() {
      0 < phantomQuote + graduationThreshold && 0 < Reserved() < supply
    }

    /** The terms the constructor and `initialize` accept. */
    predicate Valid() {
      ValidPolicy() && ValidEconomics()
    }

    /** The allocation the graduated pool receives, never sold. */
    function Reserved(): nat
      requires 0 < phantomQuote + graduationThreshold
    {
      MulDiv(supply, phantomQuote, phantomQuote + graduationThreshold)
    }
  }

  datatype Error =
    | CurveGraduated | AlreadyGraduated | NotReadyToGraduate | ZeroAmount | SlippageExceeded
    | NotFeeSweepOperator | InternalSwapRequiresOperator | MinimumOutputRequired
    | Math(why: MathError) | Underflow | TransferFailed
    | InvalidFeePolicy | InvalidLaunchEconomics

  /**
   Storage, then the chain around it (quote `held` by the contract and launch tokens in `circulation` outside its
   reserve), then running totals an observer keeps. `feeTrades` counts fee-charging trades since the last sweep.
   */
  datatype State = State(
    trackedQuote: nat, trackedTokens: nat,
    quoteFeeBalance: nat, buybackQuoteBalance: nat, creatorTaxBalance: nat,
    buybackEnabled: bool, graduated: bool,
    held: nat, circulation: nat,
    feesCharged: nat, protocolPaid: nat, creatorPaid: nat, buybackSpent: nat, donated: nat,
    handedQuote: nat, handedTokens: nat, feeTrades: nat
  )

  /** Constructor and `initialize`, which the factory runs in one transaction. */
  function Deploy(c: Config, buybackEnabled: bool): Result<State, Error> {
    var _ :- Require(c.ValidPolicy(), InvalidFeePolicy);
    var _ :- Require(c.ValidEconomics(), InvalidLaunchEconomics);
    Success(Fresh(c, buybackEnabled))
  }

  function Fresh(c: Config, buybackEnabled: bool): State {
    State(0, c.supply, 0, 0, 0, buybackEnabled, false, 0, 0, 0, 0, 0, 0, 0, 0, 0, 0)
  }

  function Pow2(k: nat): (p: nat)
    ensures 0 < p
  {
    if k == 0 then 1 else 2 * Pow2(k - 1)
  }

  /** currentSnipeTaxBps, `elapsed` seconds after launch: `startBps >> (elapsed * 14 / window)`. */
  function CurrentSnipeTaxBps(c: Config, elapsed: nat, exempt: bool): nat {
    if exempt || c.snipeTaxStartBps == 0 || c.snipeTaxSeconds <= elapsed then 0
    else c.snipeTaxStartBps / Pow2(MulDiv(elapsed, 14, c.snipeTaxSeconds))
  }

  /** The snipe tax a buy actually pays: bounded so that the three charges leave at least 1% of the spend. */
  function SnipeBps(c: Config, elapsed: nat, exempt: bool): (bps: nat)
    requires c.Valid()
    ensures c.feeBps + c.creatorTaxBps + bps <= BPS - 100
  {
    Min(CurrentSnipeTaxBps(c, elapsed, exempt), BPS - c.feeBps - c.creatorTaxBps - 100)
  }

  function SellableTokens(c: Config, s: State): nat
    requires c.Valid()
  {
    if c.Reserved() < s.trackedTokens then s.trackedTokens - c.Reserved() else 0
  }

  function ReadyToGraduate(c: Config, s: State): bool
    requires c.Valid()
  {
    !s.graduated && SellableTokens(c, s) == 0
  }

  /** phantomQuote + trackedQuote - quoteFeeBalance - creatorTaxBalance; negative where Solidity would revert. */
  function QuoteReserve(c: Config, s: State): int {
    c.phantomQuote + s.trackedQuote - s.quoteFeeBalance - s.creatorTaxBalance
  }

  function Product(c: Config, s: State): int {
    QuoteReserve(c, s) * s.trackedTokens
  }

  /** trackedQuote - quoteFeeBalance - creatorTaxBalance. */
  function RealQuoteReserve(s: State): int {
    s.trackedQuote - s.quoteFeeBalance - s.creatorTaxBalance
  }

  /** The three separately floored charges on `spent`. */
  datatype Charges = Charges(fee: nat, tax: nat, snipe: nat) {
    function Total(): nat {
      fee + tax + snipe
    }
  }

  function ChargesOn(c: Config, spent: nat, snipeBps: nat): (charges: Charges)
    requires c.Valid() && c.feeBps + c.creatorTaxBps + snipeBps <= BPS
    ensures charges.Total() <= spent
  {
    var charges := Charges(MulDiv(spent, c.feeBps, BPS), MulDiv(spent, c.creatorTaxBps, BPS),
                           MulDiv(spent, snipeBps, BPS));
    ChargesBounds(spent, c.feeBps, c.creatorTaxBps, snipeBps);
    charges
  }

  /** Three floors take at most their exact share and fall less than three units short of it. */
  lemma ChargesBounds(spent: nat, a: nat, b: nat, d: nat)
    requires a + b + d <= BPS
    ensures var t := MulDiv(spent, a, BPS) + MulDiv(spent, b, BPS) + MulDiv(spent, d, BPS);
            && t * BPS <= spent * (a + b + d) < t * BPS + 3 * BPS
            && t <= spent
  {
    assert spent * (a + b + d) == spent * a + spent * b + spent * d;
    MulLe(a + b + d, BPS, spent);
  }

  datatype Fill = Fill(spent: nat, charges: Charges, tokensOut: nat)

  /** What the first part of `buy` decides: how much is filled, charged and taken. */
  function FillFor(c: Config, s: State, received: nat, snipeBps: nat): Result<Fill, Error>
    requires c.Valid() && c.feeBps + c.creatorTaxBps + snipeBps <= BPS - 100
  {
    var _ :- Require(0 <= QuoteReserve(c, s), Underflow);
    var x, y: nat := QuoteReserve(c, s), s.trackedTokens;
    var charges := ChargesOn(c, received, snipeBps);
    var tokensOut :- Lift(GetAmountOut(received - charges.Total(), x, y, 0));
    var sellable := SellableTokens(c, s);
    var _ :- Require(sellable != 0, CurveGraduated);
    if tokensOut <= sellable then
      Success(Fill(received, charges, tokensOut))
    else
      var net :- Lift(GetAmountIn(sellable, x, y, 0));
      var spent := Min(MulDivUp(net, BPS, BPS - c.feeBps - c.creatorTaxBps - snipeBps), received);
      Success(Fill(spent, ChargesOn(c, spent, snipeBps), sellable))
  }

  function Lift<T>(r: Result<T, MathError>): Result<T, Error> {
    match r
    case Success(v) => Success(v)
    case Failure(e) => Failure(Math(e))
  }

  function ProtocolShare(c: Config, amount: nat): (share: nat)
    requires c.Valid()
    ensures share <= amount
  {
    ShareOfWhole(amount, c.protocolFeeShareBps, BPS);
    MulDiv(amount, c.protocolFeeShareBps, BPS)
  }

  /** What remains of a fee for the creator after the protocol's share. */
  function CreatorBucket(c: Config, amount: nat): nat
    requires c.Valid()
  {
    amount - ProtocolShare(c, amount)
  }

  /** _accrueFees. */
  function AccrueFees(c: Config, s: State, fee: nat, tax: nat): State
    requires c.Valid()
  {
    s.(quoteFeeBalance := s.quoteFeeBalance + fee,
       creatorTaxBalance := s.creatorTaxBalance + tax,
       buybackQuoteBalance := s.buybackQuoteBalance
         + (if s.buybackEnabled && fee != 0 then MulDiv(CreatorBucket(c, fee), c.buybackBurnBps, BPS) else 0),
       feesCharged := s.feesCharged + fee + tax,
       feeTrades := s.feeTrades + (if fee != 0 then 1 else 0))
  }

  /** Books a decided fill: fees charged, quote in, tokens out. */
  function BookFill(c: Config, s: State, fill: Fill): State
    requires c.Valid() && fill.tokensOut <= s.trackedTokens
  {
    AccrueFees(c, s, fill.charges.fee + fill.charges.snipe, fill.charges.tax).(
      trackedQuote := s.trackedQuote + fill.spent, trackedTokens := s.trackedTokens - fill.tokensOut,
      held := s.held + fill.spent, circulation := s.circulation + fill.tokensOut)
  }

  /** buy with `received` of the quote asset credited; graduation, when it follows, is a transaction of its own. */
  function Buy(c: Config, s: State, received: nat, minTokensOut: nat, elapsed: nat, exempt: bool)
    : Result<(State, Fill), Error>
    requires c.Valid()
  {
    var _ :- Require(!s.graduated, CurveGraduated);
    var _ :- Require(received != 0, ZeroAmount);
    var fill :- FillFor(c, s, received, SnipeBps(c, elapsed, exempt));
    var _ :- Require(fill.spent * minTokensOut <= received * fill.tokensOut, SlippageExceeded);
    var _ :- Require(fill.tokensOut <= s.trackedTokens, Underflow);
    Success((BookFill(c, s, fill), fill))
  }

  /** What a sale of `tokensIn` is charged and pays out. */
  datatype Proceeds = Proceeds(charges: Charges, quoteOut: nat)

  function ProceedsFor(c: Config, s: State, tokensIn: nat): Result<Proceeds, Error>
    requires c.Valid()
  {
    var _ :- Require(0 <= QuoteReserve(c, s), Underflow);
    var gross :- Lift(GetAmountOut(tokensIn, s.trackedTokens, QuoteReserve(c, s), 0));
    var charges := ChargesOn(c, gross, 0);
    Success(Proceeds(charges, gross - charges.fee - charges.tax))
  }

  function BookSale(c: Config, s: State, tokensIn: nat, sale: Proceeds): State
    requires c.Valid() && sale.quoteOut <= s.trackedQuote && sale.quoteOut <= s.held && tokensIn <= s.circulation
  {
    AccrueFees(c, s, sale.charges.fee, sale.charges.tax).(
      trackedQuote := s.trackedQuote - sale.quoteOut, trackedTokens := s.trackedTokens + tokensIn,
      held := s.held - sale.quoteOut, circulation := s.circulation - tokensIn)
  }

  /** sell; returns the quote paid out. */
  function Sell(c: Config, s: State, tokensIn: nat, minQuoteOut: nat): Result<(State, nat), Error>
    requires c.Valid()
  {
    var _ :- Require(!s.graduated && !ReadyToGraduate(c, s), CurveGraduated);
    var _ :- Require(tokensIn != 0, ZeroAmount);
    var _ :- Require(tokensIn <= s.circulation, TransferFailed);
    var sale :- ProceedsFor(c, s, tokensIn);
    var _ :- Require(minQuoteOut <= sale.quoteOut, SlippageExceeded);
    var _ :- Require(sale.quoteOut <= s.trackedQuote, Underflow);
    var _ :- Require(sale.quoteOut <= s.held, TransferFailed);
    Success((BookSale(c, s, tokensIn, sale), sale.quoteOut))
  }

  /** How a sweep splits the pending balances, and the tokens its buyback locks. */
  datatype Split = Split(protocolAmount: nat, buybackAmount: nat, creatorAmount: nat, tokensLocked: nat)

  /** The tokens the internal buyback would lock, or 0 when it folds back. */
  function BuybackTokens(c: Config, s: State, buybackAmount: nat): nat
    requires c.Valid() && 0 <= QuoteReserve(c, s) && 0 < buybackAmount
  {
    var x: nat := QuoteReserve(c, s);
    if MulDiv(buybackAmount, BPS, x + buybackAmount) <= c.maxInternalPriceImpactBps then
      var tokensOut := QuoteAmountOut(buybackAmount, x, s.trackedTokens, 0);
      if tokensOut <= SellableTokens(c, s) then tokensOut else 0
    else 0
  }

  function SplitPending(c: Config, s: State, minBuybackTokensOut: nat, executeBuyback: bool): Result<Split, Error>
    requires c.Valid()
  {
    var protocolAmount := ProtocolShare(c, s.quoteFeeBalance);
    var creatorBucket := CreatorBucket(c, s.quoteFeeBalance);
    var buybackAmount := if executeBuyback then Min(s.buybackQuoteBalance, creatorBucket) else 0;
    var creatorAmount := creatorBucket - buybackAmount + s.creatorTaxBalance;
    if buybackAmount == 0 then
      Success(Split(protocolAmount, 0, creatorAmount, 0))
    else
      var _ :- Require(minBuybackTokensOut != 0, MinimumOutputRequired);
      var _ :- Require(0 <= QuoteReserve(c, s), Underflow);
      var tokensLocked := BuybackTokens(c, s, buybackAmount);
      if tokensLocked == 0 then
        Success(Split(protocolAmount, 0, creatorAmount + buybackAmount, 0))
      else
        var _ :- Require(minBuybackTokensOut <= tokensLocked, SlippageExceeded);
        Success(Split(protocolAmount, buybackAmount, creatorAmount, tokensLocked))
  }

  /** Pays out a split: protocol and creator legs leave, the buyback slice stays and its tokens go to the vault. */
  function PayOut(s: State, split: Split): Result<State, Error> {
    var out := split.protocolAmount + split.creatorAmount;
    var _ :- Require(out <= s.trackedQuote && split.tokensLocked <= s.trackedTokens, Underflow);
    var _ :- Require(out <= s.held, TransferFailed);
    Success(s.(quoteFeeBalance := 0, buybackQuoteBalance := 0, creatorTaxBalance := 0, feeTrades := 0,
               trackedQuote := s.trackedQuote - out, held := s.held - out,
               trackedTokens := s.trackedTokens - split.tokensLocked,
               circulation := s.circulation + split.tokensLocked,
               protocolPaid := s.protocolPaid + split.protocolAmount,
               creatorPaid := s.creatorPaid + split.creatorAmount,
               buybackSpent := s.buybackSpent + split.buybackAmount))
  }

  /** _sweepFees. */
  function Sweep(c: Config, s: State, minBuybackTokensOut: nat, executeBuyback: bool): Result<State, Error>
    requires c.Valid()
  {
    if s.quoteFeeBalance == 0 && s.creatorTaxBalance == 0 then Success(s)
    else
      var split :- SplitPending(c, s, minBuybackTokensOut, executeBuyback);
      PayOut(s, split)
  }

  /** sweepFees. */
  function SweepFees(c: Config, s: State, isOperator: bool, isCreator: bool, minBuybackTokensOut: nat)
    : Result<State, Error>
    requires c.Valid()
  {
    var _ :- Require(!s.graduated, AlreadyGraduated);
    var _ :- Require(isOperator || isCreator, NotFeeSweepOperator);
    var _ :- Require(isOperator || s.buybackQuoteBalance == 0, InternalSwapRequiresOperator);
    Sweep(c, s, minBuybackTokensOut, true)
  }

  /** rescueFees: the whole creator bucket is paid, whatever was earmarked. */
  function RescueFees(c: Config, s: State): Result<State, Error>
    requires c.Valid()
  {
    var _ :- Require(s.quoteFeeBalance != 0 || s.creatorTaxBalance != 0, ZeroAmount);
    PayOut(s, Split(ProtocolShare(c, s.quoteFeeBalance), 0,
                    CreatorBucket(c, s.quoteFeeBalance) + s.creatorTaxBalance, 0))
  }

  /** The end of `graduate`: everything tracked goes to the factory. */
  function HandOver(s: State): Result<(State, (nat, nat)), Error> {
    var quoteOut, tokenOut := s.trackedQuote, s.trackedTokens;
    var _ :- Require(quoteOut <= s.held, TransferFailed);
    Success((s.(trackedQuote := 0, trackedTokens := 0, held := s.held - quoteOut,
                circulation := s.circulation + tokenOut,
                handedQuote := quoteOut, handedTokens := tokenOut), (quoteOut, tokenOut)))
  }

  /** graduate; returns the quote and tokens handed to the factory. */
  function Graduate(c: Config, s: State): Result<(State, (nat, nat)), Error>
    requires c.Valid()
  {
    var _ :- Require(!s.graduated, AlreadyGraduated);
    var _ :- Require(ReadyToGraduate(c, s), NotReadyToGraduate);
    var swept :- Sweep(c, s.(graduated := true), 0, false);
    HandOver(swept)
  }

  /** Everything that can touch the curve. Quote may be forced in; tokens outside it may be burned. */
  datatype Op =
    | OpBuy(received: nat, minTokensOut: nat, elapsed: nat, exempt: bool)
    | OpSell(tokensIn: nat, minQuoteOut: nat)
    | OpSweepFees(isOperator: bool, isCreator: bool, minBuybackTokensOut: nat)
    | OpRescueFees
    | OpSetBuybackEnabled(enabled: bool)
    | OpGraduate
    | OpDonate(amount: nat)
    | OpBurn(tokens: nat)

  function Attempt(c: Config, s: State, op: Op): Result<State, Error>
    requires c.Valid()
  {
    match op
    case OpBuy(received, minOut, elapsed, exempt) =>
      var r :- Buy(c, s, received, minOut, elapsed, exempt); Success(r.0)
    case OpSell(tokensIn, minOut) =>
      var r :- Sell(c, s, tokensIn, minOut); Success(r.0)
    case OpSweepFees(isOperator, isCreator, minOut) => SweepFees(c, s, isOperator, isCreator, minOut)
    case OpRescueFees => RescueFees(c, s)
    case OpSetBuybackEnabled(enabled) => Success(s.(buybackEnabled := enabled))
    case OpGraduate =>
      var r :- Graduate(c, s); Success(r.0)
    case OpDonate(amount) => Success(s.(held := s.held + amount, donated := s.donated + amount))
    case OpBurn(tokens) => Success(s.(circulation := s.circulation - Min(tokens, s.circulation)))
  }

  function Step(c: Config, s: State, op: Op): State
    requires c.Valid()
  {
    var r := Attempt(c, s, op);
    if r.Success? then r.value else s
  }

  function Run(c: Config, s: State, ops: seq<Op>): State
    requires c.Valid()
    decreases |ops|
  {
    if ops == [] then s else Run(c, Step(c, s, ops[0]), ops[1..])
  }
}
