/**
 src/CurvePool.sol: a constant-product curve with a virtual quote reserve. Each transaction is a function from
 state to state, and every property is proved of all runs of them; the contract itself is in
 CurvePoolContract.dfy.
 */
module CurvePoolModel {
  import opened FloorMath
  import opened Outcomes

  /** Immutables. `supply` is what the token minted to the pool, i.e. the reserve set by `initialize`. */
  datatype Config = Config(
    virtualUsdc: nat, graduationReserve: nat, feeBps: nat, creatorShareBps: nat, supply: nat
  ) {
    predicate Valid() {
      0 < virtualUsdc && feeBps <= 1000 && creatorShareBps <= BPS && 0 < supply
    }
  }

  datatype Error =
    | Expired | ZeroIn | Slippage | ExceedsRealReserve | Underflow | NothingToClaim | TokenPullFailed | SendFailed

  /**
   Storage, plus what the chain knows around it: the native `balance`, the tokens in `circulation`, and the
   running totals of native value that traders sent in, traders got back, fee holders got, or was forced in.
   */
  datatype State = State(
    realUsdc: nat, tokenReserve: nat, creatorFees: nat, protocolFees: nat, graduated: bool,
    balance: nat, circulation: nat, tradersIn: nat, tradersOut: nat, feesOut: nat, forcedIn: nat
  )

  function Launch(c: Config): State
  {
    State(0, c.supply, 0, 0, false, 0, 0, 0, 0, 0, 0)
  }

  /** The price reserve: virtual plus real. */
  function PriceReserve(c: Config, s: State): nat {
    c.virtualUsdc + s.realUsdc
  }

  function Product(c: Config, s: State): nat {
    PriceReserve(c, s) * s.tokenReserve
  }

  function QuoteBuy(c: Config, s: State, netUsdcIn: nat): nat
    requires c.Valid()
  {
    MulDiv(s.tokenReserve, netUsdcIn, PriceReserve(c, s) + netUsdcIn)
  }

  function QuoteSellGross(c: Config, s: State, tokensIn: nat): nat
    requires c.Valid() && 0 < s.tokenReserve + tokensIn
  {
    MulDiv(PriceReserve(c, s), tokensIn, s.tokenReserve + tokensIn)
  }

  function Fee(c: Config, amount: nat): (fee: nat)
    requires c.Valid()
    ensures fee <= amount
  {
    ShareOfWhole(amount, c.feeBps, BPS);
    MulDiv(amount, c.feeBps, BPS)
  }

  /** The creator's part of a fee is its share rounded down; the protocol gets all the rest. */
  function AccrueFee(c: Config, s: State, fee: nat): (t: State)
    requires c.Valid()
    ensures t.creatorFees + t.protocolFees == s.creatorFees + s.protocolFees + fee
    ensures (t.creatorFees - s.creatorFees) * BPS <= fee * c.creatorShareBps < (t.creatorFees - s.creatorFees + 1) * BPS
  {
    if fee == 0 then s else
      ShareOfWhole(fee, c.creatorShareBps, BPS);
      var toCreator := MulDiv(fee, c.creatorShareBps, BPS);
      s.(creatorFees := s.creatorFees + toCreator, protocolFees := s.protocolFees + (fee - toCreator))
  }

  /** buy: `value` is msg.value; returns the new state and the tokens bought. */
  function Buy(c: Config, s: State, value: nat, minTokensOut: nat, expired: bool): Result<(State, nat), Error>
    requires c.Valid()
  {
    var _ :- Require(!expired, Expired);
    var _ :- Require(0 < value, ZeroIn);
    var fee := Fee(c, value);
    var netIn := value - fee;
    var tokensOut := QuoteBuy(c, s, netIn);
    var _ :- Require(0 < tokensOut && minTokensOut <= tokensOut, Slippage);
    var _ :- Require(tokensOut <= s.tokenReserve, Underflow);
    var s1 := AccrueFee(c, s.(
      realUsdc := s.realUsdc + netIn, tokenReserve := s.tokenReserve - tokensOut,
      balance := s.balance + value, circulation := s.circulation + tokensOut,
      tradersIn := s.tradersIn + value), fee);
    Success((s1.(graduated := s.graduated || c.graduationReserve <= s1.realUsdc), tokensOut))
  }

  /** sell: returns the new state and the quote paid out. */
  function Sell(c: Config, s: State, tokensIn: nat, minUsdcOut: nat, expired: bool): Result<(State, nat), Error>
    requires c.Valid()
  {
    var _ :- Require(!expired, Expired);
    var _ :- Require(0 < tokensIn, ZeroIn);
    var gross := QuoteSellGross(c, s, tokensIn);
    var _ :- Require(gross <= s.realUsdc, ExceedsRealReserve);
    var fee := Fee(c, gross);
    var usdcOut := gross - fee;
    var _ :- Require(minUsdcOut <= usdcOut, Slippage);
    var _ :- Require(tokensIn <= s.circulation, TokenPullFailed);
    var _ :- Require(usdcOut <= s.balance, SendFailed);
    Success((AccrueFee(c, s.(
      realUsdc := s.realUsdc - gross, tokenReserve := s.tokenReserve + tokensIn,
      balance := s.balance - usdcOut, circulation := s.circulation - tokensIn,
      tradersOut := s.tradersOut + usdcOut), fee), usdcOut))
  }

  function ClaimCreatorFees(s: State): Result<(State, nat), Error> {
    var amount := s.creatorFees;
    var _ :- Require(0 < amount, NothingToClaim);
    var _ :- Require(amount <= s.balance, SendFailed);
    Success((s.(creatorFees := 0, balance := s.balance - amount, feesOut := s.feesOut + amount), amount))
  }

  function ClaimProtocolFees(s: State): Result<(State, nat), Error> {
    var amount := s.protocolFees;
    var _ :- Require(0 < amount, NothingToClaim);
    var _ :- Require(amount <= s.balance, SendFailed);
    Success((s.(protocolFees := 0, balance := s.balance - amount, feesOut := s.feesOut + amount), amount))
  }

  /** Everything that can touch the pool. Tokens may be sent to the pool and stranded; value may be forced in. */
  datatype Op =
    | OpBuy(value: nat, minTokensOut: nat, expired: bool)
    | OpSell(tokensIn: nat, minUsdcOut: nat, expired: bool)
    | OpClaimCreator
    | OpClaimProtocol
    | OpStrand(tokens: nat)
    | OpForce(amount: nat)

  function Attempt(c: Config, s: State, op: Op): Result<(State, nat), Error>
    requires c.Valid()
  {
    match op
    case OpBuy(value, minOut, expired) => Buy(c, s, value, minOut, expired)
    case OpSell(tokensIn, minOut, expired) => Sell(c, s, tokensIn, minOut, expired)
    case OpClaimCreator => ClaimCreatorFees(s)
    case OpClaimProtocol => ClaimProtocolFees(s)
    case OpStrand(tokens) => Success((s.(circulation := s.circulation - Min(tokens, s.circulation)), 0))
    case OpForce(amount) => Success((s.(balance := s.balance + amount, forcedIn := s.forcedIn + amount), 0))
  }

  function Step(c: Config, s: State, op: Op): State
    requires c.Valid()
  {
    var r := Attempt(c, s, op);
    if r.Success? then r.value.0 else s
  }

  function Run(c: Config, s: State, ops: seq<Op>): State
    requires c.Valid()
    decreases |ops|
  {
    if ops == [] then s else Run(c, Step(c, s, ops[0]), ops[1..])
  }

  /** What every reachable state satisfies. */
  ghost predicate Inv(c: Config, s: State) {
    && 0 < s.tokenReserve
    && s.tokenReserve + s.circulation <= c.supply
    && c.virtualUsdc * c.supply <= Product(c, s)
    && s.balance == s.realUsdc + s.creatorFees + s.protocolFees + s.forcedIn
    && s.balance + s.tradersOut + s.feesOut == s.tradersIn + s.forcedIn
    && (0 < c.graduationReserve <= s.realUsdc ==> s.graduated)
  }

  lemma BuyKeeps(c: Config, s: State, value: nat, minTokensOut: nat, expired: bool)
    requires c.Valid() && Inv(c, s)
    ensures var r := Buy(c, s, value, minTokensOut, expired);
            r != Failure(Underflow)
            && (r.Success? ==> Inv(c, r.value.0) && Product(c, s) <= Product(c, r.value.0))
  {
    SwapKeepsProduct(PriceReserve(c, s), s.tokenReserve, value - Fee(c, value));
  }

  /** The gross payout of a sale of circulating tokens never reaches into the virtual reserve. */
  lemma SellNeverExceedsRealReserve(c: Config, s: State, tokensIn: nat)
    requires c.Valid() && Inv(c, s) && tokensIn <= s.circulation
    ensures QuoteSellGross(c, s, tokensIn) <= s.realUsdc
  {
    var x, y := PriceReserve(c, s), s.tokenReserve;
    SwapKeepsProduct(y, x, tokensIn);
    ProductFloor(x - QuoteSellGross(c, s, tokensIn), y + tokensIn, c.virtualUsdc, c.supply);
  }

  lemma SellKeeps(c: Config, s: State, tokensIn: nat, minUsdcOut: nat, expired: bool)
    requires c.Valid() && Inv(c, s)
    ensures var r := Sell(c, s, tokensIn, minUsdcOut, expired);
            r != Failure(SendFailed)
            && (r.Success? ==> Inv(c, r.value.0) && Product(c, s) <= Product(c, r.value.0))
  {
    var r := Sell(c, s, tokensIn, minUsdcOut, expired);
    if r.Success? {
      var x, y, gross := PriceReserve(c, s), s.tokenReserve, QuoteSellGross(c, s, tokensIn);
      assert (y + tokensIn) * (x - gross) >= y * x by { SwapKeepsProduct(y, x, tokensIn); }
      assert Product(c, r.value.0) == (x - gross) * (y + tokensIn);
    }
  }

  // ---- What a trade pays ----

  /**
   A buy takes its floored fee off the value, swaps the rest at the constant-product price rounded down, and closes
   the pool exactly when the real reserve gets to its mark. It fails only by its deadline, at zero, or when the
   tokens miss the buyer's minimum or are none.
   */
  lemma BuyPays(c: Config, s: State, value: nat, minTokensOut: nat, expired: bool) returns (fee: nat, out: nat)
    requires c.Valid() && Inv(c, s)
    ensures var x, net := c.virtualUsdc + s.realUsdc, value - fee;
            && IsFloor(fee, value * c.feeBps, BPS)
            && IsFloor(out, s.tokenReserve * net, x + net)
    ensures var r := Buy(c, s, value, minTokensOut, expired);
            && (r.Success? <==> !expired && 0 < value && 0 < out && minTokensOut <= out)
            && (r.Success? ==>
                  var t := r.value.0;
                  && r.value.1 == out && t.tokenReserve == s.tokenReserve - out && t.circulation == s.circulation + out
                  && t.realUsdc == s.realUsdc + value - fee && t.balance == s.balance + value
                  && t.tradersIn == s.tradersIn + value && t.tradersOut == s.tradersOut
                  && t.creatorFees + t.protocolFees == s.creatorFees + s.protocolFees + fee
                  && IsFloor(t.creatorFees - s.creatorFees, fee * c.creatorShareBps, BPS)
                  && (t.graduated <==> s.graduated || c.graduationReserve <= t.realUsdc))
  {
    fee := Fee(c, value);
    out := QuoteBuy(c, s, value - fee);
    SwapKeepsProduct(PriceReserve(c, s), s.tokenReserve, value - fee);
  }

  /** A sale pays the constant-product price rounded down, less the floored fee on it. */
  lemma SellPays(c: Config, s: State, tokensIn: nat, minUsdcOut: nat, expired: bool) returns (gross: nat, fee: nat)
    requires c.Valid() && Inv(c, s)
    ensures IsFloor(gross, (c.virtualUsdc + s.realUsdc) * tokensIn, s.tokenReserve + tokensIn)
    ensures IsFloor(fee, gross * c.feeBps, BPS)
    ensures var r := Sell(c, s, tokensIn, minUsdcOut, expired);
            && (r.Success? <==> !expired && 0 < tokensIn <= s.circulation && minUsdcOut <= gross - fee)
            && (r.Success? ==>
                  var t := r.value.0;
                  && r.value.1 == gross - fee == s.balance - t.balance == t.tradersOut - s.tradersOut
                  && t.realUsdc == s.realUsdc - gross && t.tokenReserve == s.tokenReserve + tokensIn
                  && t.creatorFees + t.protocolFees == s.creatorFees + s.protocolFees + fee
                  && IsFloor(t.creatorFees - s.creatorFees, fee * c.creatorShareBps, BPS)
                  && t.graduated == s.graduated)
  {
    gross := QuoteSellGross(c, s, tokensIn);
    fee := Fee(c, gross);
    if tokensIn <= s.circulation {
      SellNeverExceedsRealReserve(c, s, tokensIn);
    }
  }

  /** Each side's fees are paid out in full, once, and never out of anything else. */
  lemma ClaimsPay(c: Config, s: State)
    requires c.Valid() && Inv(c, s)
    ensures var r := ClaimCreatorFees(s);
            && (r.Success? <==> 0 < s.creatorFees)
            && (r.Success? ==>
                  && r.value.1 == s.creatorFees == s.balance - r.value.0.balance
                  && r.value.0.creatorFees == 0 && r.value.0.protocolFees == s.protocolFees
                  && r.value.0.realUsdc == s.realUsdc)
    ensures var r := ClaimProtocolFees(s);
            && (r.Success? <==> 0 < s.protocolFees)
            && (r.Success? ==>
                  && r.value.1 == s.protocolFees == s.balance - r.value.0.balance
                  && r.value.0.protocolFees == 0 && r.value.0.creatorFees == s.creatorFees
                  && r.value.0.realUsdc == s.realUsdc)
  {
  }

  lemma StepKeeps(c: Config, s: State, op: Op)
    requires c.Valid() && Inv(c, s)
    ensures Inv(c, Step(c, s, op)) && Product(c, s) <= Product(c, Step(c, s, op))
    ensures s.graduated ==> Step(c, s, op).graduated
  {
    match op
    case OpBuy(value, minOut, expired) => BuyKeeps(c, s, value, minOut, expired);
    case OpSell(tokensIn, minOut, expired) => SellKeeps(c, s, tokensIn, minOut, expired);
    case _ =>
  }

  /** Over any run the invariant holds, the product never falls and graduation is never undone. */
  lemma {:induction false} RunKeeps(c: Config, s: State, ops: seq<Op>)
    requires c.Valid() && Inv(c, s)
    ensures Inv(c, Run(c, s, ops)) && Product(c, s) <= Product(c, Run(c, s, ops))
    ensures s.graduated ==> Run(c, s, ops).graduated
    decreases |ops|
  {
    if ops != [] {
      StepKeeps(c, s, ops[0]);
      RunKeeps(c, Step(c, s, ops[0]), ops[1..]);
    }
  }

  lemma ReachableInv(c: Config, ops: seq<Op>)
    requires c.Valid()
    ensures Inv(c, Run(c, Launch(c), ops))
  {
    RunKeeps(c, Launch(c), ops);
  }

  /**
   In no reachable state does "exceeds real reserve", a checked subtraction or an underfunded payout decide a
   transaction: a sale of circulating tokens can fail only on its own deadline, size or slippage bound.
   */
  lemma ReservesAlwaysCoverPayouts(c: Config, ops: seq<Op>, op: Op)
    requires c.Valid()
    ensures var s := Run(c, Launch(c), ops);
            var r := Attempt(c, s, op);
            (r.Failure? && !(op.OpSell? && s.circulation < op.tokensIn)
             ==> r.error in {Expired, ZeroIn, Slippage, NothingToClaim})
  {
    var s := Run(c, Launch(c), ops);
    ReachableInv(c, ops);
    match op
    case OpBuy(value, minOut, expired) => BuyKeeps(c, s, value, minOut, expired);
    case OpSell(tokensIn, minOut, expired) =>
      if tokensIn <= s.circulation {
        SellNeverExceedsRealReserve(c, s, tokensIn);
      }
    case _ =>
  }

  /** Any stretch of trading that returns the token reserve to where it was leaves traders no richer. */
  lemma NoExtraction(c: Config, before: seq<Op>, segment: seq<Op>)
    requires c.Valid()
    ensures var s := Run(c, Launch(c), before);
            var t := Run(c, s, segment);
            t.tokenReserve == s.tokenReserve ==>
              && s.realUsdc <= t.realUsdc
              && t.tradersOut - s.tradersOut
                 <= t.tradersIn - s.tradersIn
                    - ((t.creatorFees + t.protocolFees + t.feesOut) - (s.creatorFees + s.protocolFees + s.feesOut))
  {
    var s := Run(c, Launch(c), before);
    var t := Run(c, s, segment);
    ReachableInv(c, before);
    RunKeeps(c, s, segment);
    if t.tokenReserve == s.tokenReserve {
      CancelLe(PriceReserve(c, s), PriceReserve(c, t), s.tokenReserve);
    }
  }
}
