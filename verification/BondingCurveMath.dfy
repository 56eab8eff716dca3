/** src/v2/libraries/PonsV2BondingCurveMath.sol: the quotes shared by every constant-product trade. */
module BondingCurveMath {
  import opened FloorMath
  import opened Outcomes

  datatype MathError = InsufficientInputAmount | InsufficientOutputAmount | InsufficientLiquidity | FeeUnderflow

  function RawAmountOut(amountIn: nat, reserveIn: nat, reserveOut: nat, feeBps: nat): nat
    requires 0 < reserveIn && feeBps <= BPS
  {
    var amountInWithFee := amountIn * (BPS - feeBps);
    MulDiv(amountInWithFee, reserveOut, reserveIn * BPS + amountInWithFee)
  }

  function GetAmountOut(amountIn: nat, reserveIn: nat, reserveOut: nat, feeBps: nat): Result<nat, MathError> {
    var _ :- Require(amountIn != 0, InsufficientInputAmount);
    var _ :- Require(reserveIn != 0 && reserveOut != 0, InsufficientLiquidity);
    var _ :- Require(feeBps <= BPS, FeeUnderflow);
    var amountOut := RawAmountOut(amountIn, reserveIn, reserveOut, feeBps);
    var _ :- Require(amountOut != 0, InsufficientOutputAmount);
    Success(amountOut)
  }

  function QuoteAmountOut(amountIn: nat, reserveIn: nat, reserveOut: nat, feeBps: nat): nat {
    if amountIn == 0 || reserveIn == 0 || reserveOut == 0 || BPS <= feeBps then 0
    else RawAmountOut(amountIn, reserveIn, reserveOut, feeBps)
  }

  function GetAmountIn(amountOut: nat, reserveIn: nat, reserveOut: nat, feeBps: nat): Result<nat, MathError> {
    var _ :- Require(amountOut != 0, InsufficientOutputAmount);
    var _ :- Require(reserveIn != 0 && amountOut < reserveOut, InsufficientLiquidity);
    var _ :- Require(feeBps < BPS, InsufficientLiquidity);
    Success(MulDiv(amountOut * reserveIn, BPS, ScaledGap(amountOut, reserveOut, feeBps)) + 1)
  }

  function ScaledGap(amountOut: nat, reserveOut: nat, feeBps: nat): (gap: nat)
    requires amountOut < reserveOut && feeBps < BPS
    ensures 0 < gap
  {
    MulLe(1, BPS - feeBps, reserveOut - amountOut);
    (reserveOut - amountOut) * (BPS - feeBps)
  }

  /** At any fee the output is the constant-product one for the part of the input that the fee leaves, rounded down. */
  lemma FeeIsTakenFromTheInput(amountIn: nat, x: nat, y: nat, feeBps: nat)
    requires feeBps < BPS
    ensures var kept := amountIn * (10_000 - feeBps);
            && (GetAmountOut(amountIn, x, y, feeBps).Success? <==>
                  amountIn != 0 && x != 0 && y != 0 && x * 10_000 + kept <= kept * y)
            && (GetAmountOut(amountIn, x, y, feeBps).Success? ==>
                  IsFloor(GetAmountOut(amountIn, x, y, feeBps).value, kept * y, x * 10_000 + kept))
  {
    if x != 0 {
      var kept := amountIn * (10_000 - feeBps);
      CancelLt(0, RawAmountOut(amountIn, x, y, feeBps) + 1, x * BPS + kept);
      if RawAmountOut(amountIn, x, y, feeBps) != 0 {
        MulLe(1, RawAmountOut(amountIn, x, y, feeBps), x * BPS + kept);
      }
    }
  }

  /** Without a fee the basis points cancel and the quote is the plain constant-product one. */
  lemma FeeFreeAmountOut(amountIn: nat, x: nat, y: nat)
    requires 0 < x
    ensures RawAmountOut(amountIn, x, y, 0) == MulDiv(y, amountIn, x + amountIn)
  {
    var q := MulDiv(y, amountIn, x + amountIn);
    var d := x * BPS + amountIn * BPS;
    assert d == (x + amountIn) * BPS;
    assert q * d == q * (x + amountIn) * BPS;
    assert (amountIn * BPS) * y == (y * amountIn) * BPS;
    MulDivUnique(amountIn * BPS, y, d, q);
  }

  lemma FeeFreeAmountIn(amountOut: nat, x: nat, y: nat)
    requires 0 < amountOut < y && 0 < x
    ensures GetAmountIn(amountOut, x, y, 0) == Success(MulDiv(x, amountOut, y - amountOut) + 1)
  {
    var q := MulDiv(x, amountOut, y - amountOut);
    var d := (y - amountOut) * BPS;
    assert q * d == q * (y - amountOut) * BPS;
    assert (amountOut * x) * BPS == (x * amountOut) * BPS;
    MulDivUnique(amountOut * x, BPS, d, q);
  }

  /**
   The two quotes fit together at every fee: paying what `GetAmountIn` asks buys at least the requested output,
   and paying one unit less never buys more than it.
   */
  lemma AmountInSufficesAndIsTight(amountOut: nat, x: nat, y: nat, feeBps: nat)
    requires 0 < amountOut < y && 0 < x && feeBps < BPS
    ensures var amountIn := GetAmountIn(amountOut, x, y, feeBps).value;
            && amountOut <= QuoteAmountOut(amountIn, x, y, feeBps)
            && QuoteAmountOut(amountIn - 1, x, y, feeBps) <= amountOut
  {
    var w := BPS - feeBps;
    var d := ScaledGap(amountOut, y, feeBps);
    var amountIn := GetAmountIn(amountOut, x, y, feeBps).value;
    var less := amountIn - 1;
    assert less * d <= amountOut * x * BPS < less * d + d;
    Rescale(amountIn, w, amountOut, x, y);
    Rescale(less, w, amountOut, x, y);
    assert (less + 1) * d == less * d + d;
    assert amountOut * (x * BPS + amountIn * w) < amountIn * w * y;
    CancelLt(amountOut, RawAmountOut(amountIn, x, y, feeBps) + 1, x * BPS + amountIn * w);
    assert less * w * y <= amountOut * (x * BPS + less * w);
    CancelLe(RawAmountOut(less, x, y, feeBps), amountOut, x * BPS + less * w);
  }

  lemma Rescale(i: nat, w: nat, out: nat, x: nat, y: nat)
    requires out < y
    ensures i * ((y - out) * w) == i * w * y - out * (i * w)
    ensures out * (x * BPS + i * w) == out * x * BPS + out * (i * w)
  {
    assert i * ((y - out) * w) == i * w * (y - out);
    assert i * w * (y - out) == i * w * y - i * w * out;
  }
}
