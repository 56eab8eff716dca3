/**
 src/v2/PonsV2LaunchFactory.sol, graduation: a phase machine over any number of launches whose swept reserves
 wait in one contract, and the seed arithmetic that ties each of them to its curve. Each launch carries its own
 curve, modelled in BondingCurveModel.
 */
module LaunchFactoryModel {
  import opened Balances
  import opened FloorMath
  import opened Outcomes
  import C = BondingCurveModel
  import opened MapSums

  /** Tokens and quote assets; the native asset is address zero. */
  const NONE: Address := 0
  const RESCUE_DELAY: nat := 7 * 86_400

  /** PonsV2GraduationGuard, known only as a deterministic verdict on what it is asked. */
  datatype Guard = Guard(
    seedable: (Address, Address, nat, nat, nat) -> bool,
    seedableEitherOrdering: (nat, nat, nat) -> bool
  )

  type Terms = c: C.Config | c.Valid() witness C.Config(1, 1, 3, 0, 0, 0, 0, 1, 0, 15)

  datatype Phase = NotGraduated | Swept | PoolCreated | Rescued

  /**
   A LaunchedToken record with its curve, then what an observer saw leave the factory for this launch: quote
   received from the curve, and quote and tokens that went to the pool, the locker or the rescue recipient.
   */
  datatype Launch = Launch(
    token: Address, pairToken: Address, tickSpacing: nat, terms: Terms, curve: C.State,
    phase: Phase, sweptQuote: nat, sweptTokens: nat, sweptAt: nat,
    receivedQuote: nat, poolQuote: nat, poolTokens: nat, lockedTokens: nat, rescuedQuote: nat, rescuedTokens: nat
  )

  /** The factory's records and asset balances, with what was sent to it unasked and the block timestamp. */
  datatype State = State(
    launches: map<Address, Launch>, balance: map<Address, nat>, surplus: map<Address, nat>,
    executorSet: bool, now: nat
  )

  datatype Error =
    | TokenNotFound | WrongGraduationPhase | NotReadyToGraduate | NothingToGraduate | GuardRefused
    | GraduationStillViable | GraduationExecutorNotSet | GraduationSeedNotViable
    | GraduationRescueTooEarly(availableAt: nat) | ZeroAddress | NotOwner
    | DivisionByZero | Curve(why: C.Error) | MintFailed | RecipientRefused | Underflow | TransferFailed | TokenTaken

  function Deployed(now: nat, executorSet: bool): State {
    State(map[], map[], map[], executorSet, now)
  }

  // ---- Balances ----

  /** What the factory holds of asset `a` on behalf of a launch: its quote or its tokens while it is Swept. */
  function Owed(a: Address): Launch -> int {
    (l: Launch) =>
      if l.phase.Swept? then
        (if l.pairToken == a then l.sweptQuote else 0) + (if l.token == a then l.sweptTokens else 0)
      else 0
  }

  ghost function Escrowed(s: State, a: Address): int {
    Sum(s.launches, Owed(a))
  }

  // ---- The seed ----

  /** _poolTokenAmount. */
  function PoolTokenAmount(phantomQuote: nat, sweptQuote: nat, totalTokens: nat): Result<nat, Error> {
    var _ :- Require(sweptQuote != 0 && totalTokens != 0, NothingToGraduate);
    var amount := MulDiv(totalTokens, sweptQuote, sweptQuote + phantomQuote);
    var _ :- Require(amount != 0, NothingToGraduate);
    Success(amount)
  }

  /** _assertGraduationSeedable; returns the pool token amount it approved. */
  function AssertSeedable(g: Guard, l: Launch, quote: nat, tokens: nat): Result<nat, Error> {
    var amount :- PoolTokenAmount(l.terms.phantomQuote, quote, tokens);
    var _ :- Require(g.seedable(l.token, l.pairToken, l.tickSpacing, quote, amount), GuardRefused);
    Success(amount)
  }

  /** _graduationSeedable, the non-reverting mirror. */
  predicate GraduationSeedable(g: Guard, l: Launch, quote: nat, tokens: nat) {
    if quote == 0 || tokens == 0 then false
    else
      var amount := MulDiv(tokens, quote, quote + l.terms.phantomQuote);
      amount != 0 && g.seedable(l.token, l.pairToken, l.tickSpacing, quote, amount)
  }

  /** _requireSeedableTerms; returns the pool token amount the terms imply. */
  function RequireSeedableTerms(g: Guard, c: C.Config, tickSpacing: nat): Result<nat, Error> {
    var virtualQuote := c.phantomQuote + c.graduationThreshold;
    var _ :- Require(virtualQuote != 0, DivisionByZero);
    var amount := MulDiv(c.Reserved(), c.graduationThreshold, virtualQuote);
    var _ :- Require(amount != 0, GraduationSeedNotViable);
    var _ :- Require(g.seedableEitherOrdering(tickSpacing, c.graduationThreshold, amount), GuardRefused);
    Success(amount)
  }

  // ---- Transactions ----

  function LiftCurve<T>(r: Result<T, C.Error>): Result<T, Error> {
    match r
    case Success(v) => Success(v)
    case Failure(e) => Failure(Curve(e))
  }

  function Find(s: State, token: Address): Result<Launch, Error> {
    if token in s.launches then Success(s.launches[token]) else Failure(TokenNotFound)
  }

  /** launchToken, as far as graduation depends on it. A new token's address was no contract and no asset before. */
  function LaunchToken(g: Guard, s: State, token: Address, pairToken: Address, tickSpacing: nat,
                       c: C.Config, buybackEnabled: bool): Result<State, Error>
  {
    var _ :- Require(token != NONE && token != pairToken && token !in s.launches
                     && (forall t <- s.launches :: s.launches[t].pairToken != token), TokenTaken);
    var _ :- RequireSeedableTerms(g, c, tickSpacing);
    var curve :- LiftCurve(C.Deploy(c, buybackEnabled));
    Success(s.(launches := s.launches[token :=
      Launch(token, pairToken, tickSpacing, c, curve, NotGraduated, 0, 0, 0, 0, 0, 0, 0, 0, 0)]))
  }

  /** A transaction on the launch's curve that does not go through the factory. */
  function Trade(s: State, token: Address, op: C.Op): Result<State, Error> {
    var l :- Find(s, token);
    var _ :- Require(!op.OpGraduate? && !op.OpRescueFees?, NotOwner);
    var curve :- LiftCurve(C.Attempt(l.terms, l.curve, op));
    Success(s.(launches := s.launches[token := l.(curve := curve)]))
  }

  /** The record `_sweepCurve` writes when the curve hands over `handed` and `quote` of it arrives. */
  function SweptLaunch(l: Launch, curve: C.State, quote: nat, tokens: nat, now: nat): Launch {
    l.(curve := curve, phase := Swept, sweptQuote := quote, sweptTokens := tokens, sweptAt := now,
       receivedQuote := quote)
  }

  /** _sweepCurve: the quote asset delivers what the curve sends, less `lost`. */
  function SweepCurve(s: State, token: Address, l: Launch, lost: nat): Result<State, Error> {
    var r :- LiftCurve(C.Graduate(l.terms, l.curve));
    var quoteOut := r.1.0 - Min(lost, r.1.0);
    var _ :- Require(quoteOut != 0, NothingToGraduate);
    Success(s.(launches := s.launches[token := SweptLaunch(l, r.0, quoteOut, r.1.1, s.now)],
               balance := Plus(Plus(s.balance, l.pairToken, quoteOut), token, r.1.1)))
  }

  /** What `graduate` and `forceSweptGraduation` check before their preflights; returns the curve's real quote. */
  function ReadyLaunch(s: State, token: Address): Result<(Launch, nat), Error> {
    var l :- Find(s, token);
    var _ :- Require(l.phase.NotGraduated?, WrongGraduationPhase);
    var _ :- Require(C.ReadyToGraduate(l.terms, l.curve), NotReadyToGraduate);
    var _ :- Require(0 <= C.RealQuoteReserve(l.curve), Underflow);
    Success((l, C.RealQuoteReserve(l.curve)))
  }

  function Graduate(g: Guard, s: State, token: Address, lost: nat): Result<State, Error> {
    var ready :- ReadyLaunch(s, token);
    var _ :- AssertSeedable(g, ready.0, ready.1, ready.0.curve.trackedTokens);
    SweepCurve(s, token, ready.0, lost)
  }

  function ForceSweptGraduation(g: Guard, s: State, token: Address, isOwner: bool, lost: nat): Result<State, Error> {
    var _ :- Require(isOwner, NotOwner);
    var ready :- ReadyLaunch(s, token);
    var _ :- Require(!GraduationSeedable(g, ready.0, ready.1, ready.0.curve.trackedTokens), GraduationStillViable);
    SweepCurve(s, token, ready.0, lost)
  }

  function SeededLaunch(l: Launch, poolTokens: nat): Launch
    requires poolTokens <= l.sweptTokens
  {
    l.(phase := PoolCreated, sweptQuote := 0, sweptTokens := 0, sweptAt := 0,
       poolQuote := l.sweptQuote, poolTokens := poolTokens, lockedTokens := l.sweptTokens - poolTokens)
  }

  /** _fundGraduationExecutor: both legs of the seed leave, exactly. */
  function FundExecutor(balance: map<Address, nat>, l: Launch, poolTokens: nat): Result<map<Address, nat>, Error> {
    var unfunded :- Minus(balance, l.token, poolTokens, TransferFailed);
    Minus(unfunded, l.pairToken, l.sweptQuote, TransferFailed)
  }

  /** Excess tokens to the locker, then the seed to the executor if Uniswap takes the position. */
  function SeedPayments(balance: map<Address, nat>, l: Launch, poolTokens: nat, mints: bool)
    : Result<map<Address, nat>, Error>
    requires poolTokens <= l.sweptTokens
  {
    var unlocked :- Minus(balance, l.token, l.sweptTokens - poolTokens, TransferFailed);
    var _ :- Require(mints, MintFailed);
    FundExecutor(unlocked, l, poolTokens)
  }

  /** createGraduatedPool; `mints` is whether Uniswap accepts the position. */
  function CreateGraduatedPool(g: Guard, s: State, token: Address, mints: bool): Result<State, Error> {
    var _ :- Require(s.executorSet, GraduationExecutorNotSet);
    var l :- Find(s, token);
    var _ :- Require(l.phase.Swept?, WrongGraduationPhase);
    var poolTokens :- AssertSeedable(g, l, l.sweptQuote, l.sweptTokens);
    var _ :- Require(poolTokens <= l.sweptTokens, Underflow);
    var balance :- SeedPayments(s.balance, l, poolTokens, mints);
    Success(s.(launches := s.launches[token := SeededLaunch(l, poolTokens)], balance := balance))
  }

  function RescueCurveFees(s: State, token: Address, isOwner: bool): Result<State, Error> {
    var _ :- Require(isOwner, NotOwner);
    var l :- Find(s, token);
    var curve :- LiftCurve(C.RescueFees(l.terms, l.curve));
    Success(s.(launches := s.launches[token := l.(curve := curve)]))
  }

  function RescuedLaunch(l: Launch): Launch {
    l.(phase := Rescued, sweptQuote := 0, sweptTokens := 0, sweptAt := 0,
       rescuedQuote := l.sweptQuote, rescuedTokens := l.sweptTokens)
  }

  /** The end of `rescueSweptGraduation`: both reserves leave whole. */
  function ReleaseReserves(balance: map<Address, nat>, l: Launch): Result<map<Address, nat>, Error> {
    var unquoted :- Minus(balance, l.pairToken, l.sweptQuote, TransferFailed);
    Minus(unquoted, l.token, l.sweptTokens, TransferFailed)
  }

  /** rescueSweptGraduation; `accepts` is whether the recipient takes the transfers. */
  function RescueSweptGraduation(s: State, token: Address, recipient: Address, isOwner: bool, accepts: bool)
    : Result<State, Error>
  {
    var _ :- Require(isOwner, NotOwner);
    var l :- Find(s, token);
    var _ :- Require(l.phase.Swept?, WrongGraduationPhase);
    var _ :- Require(recipient != NONE, ZeroAddress);
    var _ :- Require(l.sweptAt + RESCUE_DELAY <= s.now, GraduationRescueTooEarly(l.sweptAt + RESCUE_DELAY));
    var _ :- Require(accepts, RecipientRefused);
    var balance :- ReleaseReserves(s.balance, l);
    Success(s.(launches := s.launches[token := RescuedLaunch(l)], balance := balance))
  }

  /** Everything that can touch the factory or a launch's curve. Assets may be sent in; time may pass. */
  datatype Op =
    | OpLaunch(token: Address, pairToken: Address, tickSpacing: nat, c: C.Config, buybackEnabled: bool)
    | OpTrade(token: Address, op: C.Op)
    | OpGraduate(token: Address, lost: nat)
    | OpForceSwept(token: Address, isOwner: bool, lost: nat)
    | OpCreatePool(token: Address, mints: bool)
    | OpRescueCurveFees(token: Address, isOwner: bool)
    | OpRescueSwept(token: Address, recipient: Address, isOwner: bool, accepts: bool)
    | OpSetExecutor
    | OpDonate(asset: Address, amount: nat)
    | OpWait(seconds: nat)

  function Attempt(g: Guard, s: State, op: Op): Result<State, Error> {
    match op
    case OpLaunch(token, pair, spacing, c, enabled) => LaunchToken(g, s, token, pair, spacing, c, enabled)
    case OpTrade(token, op) => Trade(s, token, op)
    case OpGraduate(token, lost) => Graduate(g, s, token, lost)
    case OpForceSwept(token, isOwner, lost) => ForceSweptGraduation(g, s, token, isOwner, lost)
    case OpCreatePool(token, mints) => CreateGraduatedPool(g, s, token, mints)
    case OpRescueCurveFees(token, isOwner) => RescueCurveFees(s, token, isOwner)
    case OpRescueSwept(token, to, isOwner, accepts) => RescueSweptGraduation(s, token, to, isOwner, accepts)
    case OpSetExecutor => Success(s.(executorSet := true))
    case OpDonate(asset, amount) =>
      Success(s.(balance := Plus(s.balance, asset, amount), surplus := Plus(s.surplus, asset, amount)))
    case OpWait(seconds) => Success(s.(now := s.now + seconds))
  }

  function Step(g: Guard, s: State, op: Op): State {
    var r := Attempt(g, s, op);
    if r.Success? then r.value else s
  }

  function Run(g: Guard, s: State, ops: seq<Op>): State
    decreases |ops|
  {
    if ops == [] then s else Run(g, Step(g, s, ops[0]), ops[1..])
  }
}
