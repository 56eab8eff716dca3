/**
 Where PonsV2BondingCurve's rounding shows. Two informal claims fail by it: "sold out exactly when the threshold is
 reached", and "the earmarked buyback quote exceeds the creator's bucket by at most a wei or two". Each gets the
 condition under which it holds, on every input, and inputs where it does not.
 */
module BondingCurveRounding {
  import opened FloorMath
  import opened Outcomes
  import opened BondingCurveMath
  import opened BondingCurveModel
  import opened BondingCurveRuns

  // ---- Sold out and threshold reached ----

  /**
   Being sold out and having reached the threshold coincide while rounding has not lifted the product past
   (phantomQuote + threshold) * (reserved + 1).
   */
  lemma SoldOutIffThresholdReached(c: Config, s: State)
    requires c.Valid() && TradingInv(c, s) && !s.graduated
    requires Product(c, s) < (c.phantomQuote + c.graduationThreshold) * (c.Reserved() + 1)
    ensures ReadyToGraduate(c, s) <==> c.graduationThreshold <= RealQuoteReserve(s)
  {
    AcceptedEconomics(c);
    if ReadyToGraduate(c, s) {
      SoldOutMeansThresholdReached(c, s);
    } else if c.graduationThreshold <= RealQuoteReserve(s) {
      var x: nat := QuoteReserve(c, s);
      MulLe(c.Reserved() + 1, s.trackedTokens, x);
      MulLe(c.phantomQuote + c.graduationThreshold, x, c.Reserved() + 1);
    }
  }

  /** A swap keeping `kept` leaves ceil(x * y / (x + kept)) tokens: at most r exactly when r * (x + kept) >= x * y. */
  lemma TokensLeft(x: nat, y: nat, kept: nat, r: nat)
    requires 0 < x
    ensures var out := MulDiv(y, kept, x + kept);
            && out <= y
            && (x * y <= r * (x + kept) <==> y - out <= r)
            && (y - out) * (x + kept) < x * y + (x + kept)
  {
    var d := x + kept;
    var out := MulDiv(y, kept, d);
    ShareOfWhole(y, kept, d);
    assert y * d == x * y + y * kept;
    Distribute(y, out, d);
    CeilAtMost(x * y, d, y - out, r);
  }

  lemma CeilAtMost(n: nat, d: nat, q: nat, r: nat)
    requires n <= q * d < n + d
    ensures n <= r * d <==> q <= r
  {
    if n <= r * d {
      Distribute(r, 1, d);
      CancelLt(q, r + 1, d);
    }
    if q <= r {
      MulLe(q, r, d);
    }
  }

  /** A fill, clamped or not, sells out exactly when reserved * (reserve + quote it would keep) covers the product. */
  lemma FillSellsOut(c: Config, s: State, received: nat, elapsed: nat, exempt: bool)
    requires c.Valid() && TradingInv(c, s)
    ensures var r := FillFor(c, s, received, SnipeBps(c, elapsed, exempt));
            var x' := QuoteReserve(c, s) + Kept(c, received, elapsed, exempt);
            r.Success? ==>
              && r.value.tokensOut <= SellableTokens(c, s)
              && (s.trackedTokens - r.value.tokensOut <= c.Reserved() <==> Product(c, s) <= c.Reserved() * x')
              && (c.Reserved() * x' < Product(c, s) ==>
                    QuoteReserve(c, s) + r.value.spent - r.value.charges.Total() == x')
  {
    var x, y: nat := QuoteReserve(c, s), s.trackedTokens;
    var kept := Kept(c, received, elapsed, exempt);
    AcceptedEconomics(c);
    FeeFreeAmountOut(kept, x, y);
    TokensLeft(x, y, kept, c.Reserved());
  }

  /**
   The next call. From every reachable trading state a buy sells the curve out exactly when
   product <= reserved * (quote reserve + quote kept), so it reaches the threshold with tokens left to sell exactly
   when the quote it keeps lies between the threshold and that point.
   */
  lemma BuySellsOutExactlyWhen(c: Config, enabled: bool, ops: seq<Op>,
                               received: nat, minOut: nat, elapsed: nat, exempt: bool)
    requires c.Valid()
    ensures var s := Run(c, Fresh(c, enabled), ops);
            var r := Buy(c, s, received, minOut, elapsed, exempt);
            var x' := QuoteReserve(c, s) + Kept(c, received, elapsed, exempt);
            r.Success? ==>
              && (ReadyToGraduate(c, r.value.0) <==> Product(c, s) <= c.Reserved() * x')
              && (!ReadyToGraduate(c, r.value.0) && c.graduationThreshold <= RealQuoteReserve(r.value.0)
                  <==> c.phantomQuote + c.graduationThreshold <= x' && c.Reserved() * x' < Product(c, s))
  {
    var s := Run(c, Fresh(c, enabled), ops);
    ReachableInv(c, enabled, ops);
    var r := Buy(c, s, received, minOut, elapsed, exempt);
    if r.Success? {
      FillSellsOut(c, s, received, elapsed, exempt);
      assert r.value.0.trackedTokens == s.trackedTokens - r.value.1.tokensOut;
      assert QuoteReserve(c, r.value.0) == QuoteReserve(c, s) + r.value.1.spent - r.value.1.charges.Total();
    }
  }

  /**
   At launch. A first buy that keeps exactly the threshold brings the real reserve to the threshold; it sells the
   curve out exactly when phantomQuote + threshold divides phantomQuote * supply, and leaves one token otherwise.
   It is refused only when that token was the only one for sale.
   */
  lemma FirstBuyOfTheThreshold(c: Config, enabled: bool, received: nat, elapsed: nat, exempt: bool)
    requires c.Valid() && Kept(c, received, elapsed, exempt) == c.graduationThreshold
    ensures var s := Fresh(c, enabled);
            var r := Buy(c, s, received, 0, elapsed, exempt);
            var divides := c.phantomQuote * c.supply % (c.phantomQuote + c.graduationThreshold) == 0;
            && Product(c, s) < (c.phantomQuote + c.graduationThreshold) * (c.Reserved() + 1)
            && (r.Success? <==> divides || c.Reserved() + 2 <= c.supply)
            && (r.Success? ==>
                  && RealQuoteReserve(r.value.0) == c.graduationThreshold
                  && SellableTokens(c, r.value.0) == (if divides then 0 else 1)
                  && (ReadyToGraduate(c, r.value.0) <==> divides))
  {
    var s := Fresh(c, enabled);
    var d := c.phantomQuote + c.graduationThreshold;
    AcceptedEconomics(c);
    LaunchTokensLeft(c);
    var out := MulDiv(c.supply, c.graduationThreshold, d);
    FeeFreeAmountOut(c.graduationThreshold, c.phantomQuote, c.supply);
    var fill := FillFor(c, s, received, SnipeBps(c, elapsed, exempt));
    assert 0 < out ==> fill == Success(Fill(received, ChargesOn(c, received, SnipeBps(c, elapsed, exempt)), out));
  }

  /** Whatever the fees, some amount received keeps exactly the threshold, or any other quote. */
  lemma SomeBuyKeeps(c: Config, quote: nat, elapsed: nat, exempt: bool) returns (received: nat)
    requires c.Valid()
    ensures Kept(c, received, elapsed, exempt) == quote
  {
    hide MulDiv, SnipeBps;
    var snipeBps := SnipeBps(c, elapsed, exempt);
    ChargesBounds(quote * BPS, c.feeBps, c.creatorTaxBps, snipeBps);
    AtLeastOnePercent(quote, ChargesOn(c, quote * BPS, snipeBps).Total(), c.feeBps + c.creatorTaxBps + snipeBps);
    received := KeptFrom(c, quote, quote * BPS, elapsed, exempt);
  }

  lemma AtLeastOnePercent(quote: nat, charged: nat, bps: nat)
    requires bps <= BPS - 100 && charged * BPS <= quote * BPS * bps
    ensures quote <= quote * BPS - charged
  {
    MulLe(bps, BPS - 100, quote * BPS);
  }

  lemma {:induction false} KeptFrom(c: Config, quote: nat, most: nat, elapsed: nat, exempt: bool)
    returns (received: nat)
    requires c.Valid() && quote <= Kept(c, most, elapsed, exempt)
    ensures Kept(c, received, elapsed, exempt) == quote
    decreases most
  {
    received := most;
    if quote < Kept(c, most, elapsed, exempt) {
      MulDivMonotone(most - 1, most, c.feeBps, BPS);
      MulDivMonotone(most - 1, most, c.creatorTaxBps, BPS);
      MulDivMonotone(most - 1, most, SnipeBps(c, elapsed, exempt), BPS);
      received := KeptFrom(c, quote, most - 1, elapsed, exempt);
    }
  }

  lemma LaunchTokensLeft(c: Config)
    requires c.Valid()
    ensures var d := c.phantomQuote + c.graduationThreshold;
            && c.phantomQuote * c.supply < d * (c.Reserved() + 1)
            && c.supply - MulDiv(c.supply, c.graduationThreshold, d)
               == c.Reserved() + (if c.phantomQuote * c.supply % d == 0 then 0 else 1)
  {
    var d := c.phantomQuote + c.graduationThreshold;
    var r := c.Reserved();
    var n := c.phantomQuote * c.supply;
    RestOfDivision(n, d, r);
    Distribute(r, 1, d);
    RestOfSupply(c.supply, c.phantomQuote, d, r, n % d);
    MulDivUnique(c.supply, c.graduationThreshold, d, c.supply - r - (if n % d == 0 then 0 else 1));
  }

  /** What the threshold's share of the supply comes to, given the phantom quote's share and its rest. */
  lemma RestOfSupply(supply: nat, phantom: nat, d: nat, r: nat, rest: nat)
    requires phantom <= d && rest < d && supply * phantom == r * d + rest
    ensures var out := supply - r - (if rest == 0 then 0 else 1);
            0 <= out && out * d <= supply * (d - phantom) < out * d + d
  {
    var more := if rest == 0 then 0 else 1;
    MulLe(phantom, d, supply);
    Distribute(d, phantom, supply);
    Distribute(r, more, d);
    Distribute(supply, r + more, d);
    CancelLt(r + more, supply + 1, d) by {
      Distribute(supply, 1, d);
    }
  }

  lemma RestOfDivision(n: nat, d: nat, r: nat)
    requires 0 < d && r * d <= n < r * d + d
    ensures n % d == n - r * d
  {
    DivBounds(n, d);
    var q := n / d;
    Distribute(q, 1, d);
    Distribute(r, 1, d);
    CancelLt(q, r + 1, d);
    CancelLt(r, q + 1, d);
    assert n == d * q + n % d;
  }

  /** The smallest such launch: supply 3, phantom quote and threshold 1, no fees, one buy of 1. */
  lemma ThresholdCanBeReachedBeforeSellOut(c: Config, op: Op)
    requires c == Config(1, 1, 3, 0, 0, 0, 0, 1, 0, 15) && op == OpBuy(1, 0, 0, true)
    ensures c.Valid()
    ensures var s := Run(c, Fresh(c, false), [op]);
            && c.graduationThreshold == RealQuoteReserve(s)
            && SellableTokens(c, s) == 1 && !ReadyToGraduate(c, s)
  {
    hide Buy, Run, Product, Kept, SellableTokens;
    SmallestLaunch(c);
    FirstBuyOfTheThreshold(c, false, 1, 0, true);
    OneBuy(c, Fresh(c, false), op);
  }

  lemma SmallestLaunch(c: Config)
    requires c == Config(1, 1, 3, 0, 0, 0, 0, 1, 0, 15)
    ensures c.Valid() && c.Reserved() == 1 && Kept(c, 1, 0, true) == 1
  {
    MulDivUnique(3, 1, 2, 1);
    MulDivUnique(1, 0, BPS, 0);
  }

  lemma OneBuy(c: Config, s: State, op: Op)
    requires c.Valid() && op.OpBuy?
    ensures var r := Buy(c, s, op.received, op.minTokensOut, op.elapsed, op.exempt);
            Run(c, s, [op]) == if r.Success? then r.value.0 else s
  {
    hide Buy;
    assert [op][1..] == [];
    assert Run(c, Step(c, s, op), []) == Step(c, s, op);
  }

  // ---- The earmark ----

  /** The bound on the earmark: above the creator's bucket by less than the number of trades since the last sweep. */
  lemma EarmarkNearBucket(c: Config, buybackEnabled: bool, ops: seq<Op>)
    requires c.Valid()
    ensures var s := Run(c, Fresh(c, buybackEnabled), ops);
            0 < s.feeTrades ==>
              s.buybackQuoteBalance < CreatorBucket(c, s.quoteFeeBalance) + s.feeTrades
  {
    ReachableInv(c, buybackEnabled, ops);
  }

  /** A fee that is all one party's, or a buyback share short of the whole bucket. */
  predicate EarmarkFits(c: Config) {
    c.buybackBurnBps < BPS || c.protocolFeeShareBps == 0 || c.protocolFeeShareBps == BPS
  }

  /** One slice never takes the unit that flooring the two fees separately adds to the bucket. */
  lemma SliceFits(c: Config, pending: nat, fee: nat)
    requires c.Valid() && EarmarkFits(c)
    ensures CreatorBucket(c, pending) + MulDiv(CreatorBucket(c, fee), c.buybackBurnBps, BPS)
            <= CreatorBucket(c, pending + fee)
  {
    hide CreatorBucket;
    ShareOfWhole(CreatorBucket(c, fee), c.buybackBurnBps, BPS);
    if c.protocolFeeShareBps == 0 || c.protocolFeeShareBps == BPS {
      WholeShare(c, pending);
      WholeShare(c, fee);
      WholeShare(c, pending + fee);
    } else {
      BucketOfSum(c, pending, fee);
    }
  }

  lemma BucketOfSum(c: Config, pending: nat, fee: nat)
    requires c.Valid() && c.protocolFeeShareBps < BPS
    ensures CreatorBucket(c, pending) + CreatorBucket(c, fee) <= CreatorBucket(c, pending + fee) + 1
    ensures fee == 0 || 0 < CreatorBucket(c, fee)
    ensures fee == 0 ==> CreatorBucket(c, fee) == 0
  {
    FloorOfSum(pending, fee, c.protocolFeeShareBps, BPS);
    ShareOfWhole(fee, c.protocolFeeShareBps, BPS);
  }

  lemma WholeShare(c: Config, amount: nat)
    requires c.Valid() && (c.protocolFeeShareBps == 0 || c.protocolFeeShareBps == BPS)
    ensures CreatorBucket(c, amount) == if c.protocolFeeShareBps == 0 then amount else 0
  {
    MulDivUnique(amount, c.protocolFeeShareBps, BPS, if c.protocolFeeShareBps == 0 then 0 else amount);
  }

  lemma StepFits(c: Config, s: State, op: Op)
    requires c.Valid() && EarmarkFits(c) && s.buybackQuoteBalance <= CreatorBucket(c, s.quoteFeeBalance)
    ensures var t := Step(c, s, op); t.buybackQuoteBalance <= CreatorBucket(c, t.quoteFeeBalance)
  {
    hide FillFor, ProceedsFor, SplitPending, EarmarkFits;
    MulDivUnique(0, c.protocolFeeShareBps, BPS, 0);
    match op
    case OpBuy(received, minOut, elapsed, exempt) =>
      var r := Buy(c, s, received, minOut, elapsed, exempt);
      if r.Success? {
        SliceFits(c, s.quoteFeeBalance, r.value.1.charges.fee + r.value.1.charges.snipe);
      }
    case OpSell(tokensIn, minOut) =>
      var sale := ProceedsFor(c, s, tokensIn);
      if sale.Success? {
        SliceFits(c, s.quoteFeeBalance, sale.value.charges.fee);
      }
    case _ =>
  }

  lemma {:induction false} RunFits(c: Config, s: State, ops: seq<Op>)
    requires c.Valid() && EarmarkFits(c) && s.buybackQuoteBalance <= CreatorBucket(c, s.quoteFeeBalance)
    ensures var t := Run(c, s, ops); t.buybackQuoteBalance <= CreatorBucket(c, t.quoteFeeBalance)
    decreases |ops|
  {
    if ops != [] {
      StepFits(c, s, ops[0]);
      RunFits(c, Step(c, s, ops[0]), ops[1..]);
    }
  }

  /** One half of the exact condition: with such shares no run ever earmarks more than the bucket holds. */
  lemma EarmarkFitsTheBucket(c: Config, buybackEnabled: bool, ops: seq<Op>)
    requires c.Valid() && EarmarkFits(c)
    ensures var s := Run(c, Fresh(c, buybackEnabled), ops);
            s.buybackQuoteBalance <= CreatorBucket(c, s.quoteFeeBalance)
  {
    MulDivUnique(0, c.protocolFeeShareBps, BPS, 0);
    RunFits(c, Fresh(c, buybackEnabled), ops);
  }

  /** A launch with a 1% fee, all of the creator's bucket bought back, and room for `n` buys of 100. */
  function UnitFeeLaunch(protocolShare: nat, n: nat): Config {
    var phantom := 100 * (n + 1);
    Config(phantom, phantom, 2 * phantom, 100, 0, protocolShare, BPS, 1, 0, 15)
  }

  function Buys(n: nat): seq<Op> {
    if n == 0 then [] else Buys(n - 1) + [OpBuy(100, 0, 0, true)]
  }

  lemma {:induction false} RunAppend(c: Config, s: State, ops: seq<Op>, op: Op)
    requires c.Valid()
    ensures Run(c, s, ops + [op]) == Step(c, Run(c, s, ops), op)
    decreases |ops|
  {
    if ops == [] {
      assert [op][1..] == [];
    } else {
      assert (ops + [op])[1..] == ops[1..] + [op];
      RunAppend(c, Step(c, s, ops[0]), ops[1..], op);
    }
  }

  /** Inside its room every such buy is filled whole and charged a fee of one unit. */
  lemma UnitFeeBuy(protocolShare: nat, n: nat, s: State)
    requires protocolShare < BPS
    requires var c := UnitFeeLaunch(protocolShare, n);
             && Inv(c, s) && !s.graduated && s.buybackEnabled
             && RealQuoteReserve(s) + 99 <= 99 * n
    ensures var c := UnitFeeLaunch(protocolShare, n);
            var t := Step(c, s, OpBuy(100, 0, 0, true));
            && !t.graduated && t.buybackEnabled && RealQuoteReserve(t) == RealQuoteReserve(s) + 99
            && t.quoteFeeBalance == s.quoteFeeBalance + 1 && t.buybackQuoteBalance == s.buybackQuoteBalance + 1
  {
    var c := UnitFeeLaunch(protocolShare, n);
    UnitFeeFill(protocolShare, n, s);
    MulDivUnique(1, protocolShare, BPS, 0);
    MulDivUnique(1, BPS, BPS, 1);
    var r := Buy(c, s, 100, 0, 0, true);
    assert r.Success?;
  }

  lemma UnitFeeFill(protocolShare: nat, n: nat, s: State)
    requires protocolShare < BPS
    requires var c := UnitFeeLaunch(protocolShare, n);
             Inv(c, s) && !s.graduated && RealQuoteReserve(s) + 99 <= 99 * n
    ensures var c := UnitFeeLaunch(protocolShare, n);
            var r := FillFor(c, s, 100, SnipeBps(c, 0, true));
            && r.Success? && r.value.spent == 100 && r.value.charges == Charges(1, 0, 0)
            && r.value.tokensOut <= s.trackedTokens
  {
    var c := UnitFeeLaunch(protocolShare, n);
    var x, y: nat := QuoteReserve(c, s), s.trackedTokens;
    var phantom := c.phantomQuote;
    MulDivUnique(2 * phantom, phantom, 2 * phantom, phantom);
    MulDivUnique(100, 100, BPS, 1);
    MulDivUnique(100, 0, BPS, 0);
    FeeFreeAmountOut(99, x, y);
    TokensLeft(x, y, 99, phantom);
    ManyTokensLeft(x, y, phantom);
  }

  /** While the reserve stays below its terminal level every 99 units of quote buy a token and leave the allocation. */
  lemma ManyTokensLeft(x: nat, y: nat, phantom: nat)
    requires 0 < phantom && x + 99 < 2 * phantom && phantom <= y
    requires phantom * (2 * phantom) <= x * y
    ensures phantom * (x + 99) < x * y
    ensures 0 < MulDiv(y, 99, x + 99)
  {
    MulLe(x + 99 + 1, 2 * phantom, phantom);
    CancelLt(0, MulDiv(y, 99, x + 99), x + 99) by {
      assert x + 99 <= 99 * y;
    }
  }

  lemma {:induction false} UnitFeeRun(protocolShare: nat, n: nat, k: nat)
    requires protocolShare < BPS && k <= n
    ensures var c := UnitFeeLaunch(protocolShare, n);
            && c.Valid()
            && var s := Run(c, Fresh(c, true), Buys(k));
               && Inv(c, s) && !s.graduated && s.buybackEnabled && RealQuoteReserve(s) == 99 * k
               && s.quoteFeeBalance == k && s.buybackQuoteBalance == k
    decreases k
  {
    hide Step, Inv, Product;
    var c := UnitFeeLaunch(protocolShare, n);
    MulDivUnique(2 * c.phantomQuote, c.phantomQuote, 2 * c.phantomQuote, c.phantomQuote);
    ReachableInv(c, true, Buys(k));
    if 0 < k {
      UnitFeeRun(protocolShare, n, k - 1);
      RunAppend(c, Fresh(c, true), Buys(k - 1), OpBuy(100, 0, 0, true));
      UnitFeeBuy(protocolShare, n, Run(c, Fresh(c, true), Buys(k - 1)));
    }
  }

  /**
   The other half: when the whole bucket is bought back and the protocol takes a share strictly between nothing and
   everything, n buys put the earmark n * protocolShare / BPS above the bucket.
   */
  lemma EarmarkExceedsTheBucket(protocolShare: nat, n: nat)
    requires 0 < protocolShare < BPS
    ensures var c := UnitFeeLaunch(protocolShare, n);
            && c.Valid() && !EarmarkFits(c)
            && var s := Run(c, Fresh(c, true), Buys(n));
               && s.quoteFeeBalance == n
               && s.buybackQuoteBalance == CreatorBucket(c, s.quoteFeeBalance) + MulDiv(n, protocolShare, BPS)
  {
    hide Run, Buys, Fresh, MulDiv;
    UnitFeeRun(protocolShare, n, n);
  }

  /** That excess passes every bound, and at a 99.99% share it meets the one of EarmarkNearBucket. */
  lemma ExcessIsUnbounded(protocolShare: nat, n: nat)
    requires 0 < protocolShare < BPS
    ensures MulDiv(n * BPS, protocolShare, BPS) >= n
    ensures protocolShare == 9_999 && 0 < n <= BPS ==> MulDiv(n, protocolShare, BPS) == n - 1
  {
    assert n * BPS * protocolShare == n * protocolShare * BPS;
    MulDivUnique(n * BPS, protocolShare, BPS, n * protocolShare);
    MulLe(1, protocolShare, n);
    if protocolShare == 9_999 && 0 < n <= BPS {
      MulDivUnique(n, protocolShare, BPS, n - 1);
    }
  }
}
