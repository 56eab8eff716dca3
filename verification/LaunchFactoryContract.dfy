/** src/v2/PonsV2LaunchFactory.sol, graduation, method by method; proved against LaunchFactoryModel. */
module LaunchFactoryContract {
  import opened Balances
  import opened FloorMath
  import opened Outcomes
  import C = BondingCurveModel
  import opened Model = LaunchFactoryModel
  import Runs = LaunchFactoryRuns

  class PonsV2LaunchFactory {
    const guard: Guard
    var launches: map<Address, Launch>
    var executorSet: bool
    // The chain around the contract.
    var balance: map<Address, nat>
    ghost var surplus: map<Address, nat>
    var timestamp: nat

    ghost function Snapshot(): State
      reads this
    {
      State(launches, balance, surplus, executorSet, timestamp)
    }

    ghost predicate Valid()
      reads this
    {
      Runs.Inv(guard, Snapshot())
    }

    constructor (guard: Guard, timestamp: nat)
      ensures this.guard == guard && Snapshot() == Deployed(timestamp, false) && Valid()
    {
      this.guard, this.timestamp := guard, timestamp;
      launches, balance, surplus, executorSet := map[], map[], map[], false;
      new;
      Runs.ReachableInv(guard, timestamp, false, []);
    }

    method PoolTokenAmount(l: Launch, sweptQuote: nat, totalTokens: nat) returns (r: Result<nat, Error>)
      ensures r == Model.PoolTokenAmount(l.terms.phantomQuote, sweptQuote, totalTokens)
    {
      if sweptQuote == 0 || totalTokens == 0 {
        return Failure(NothingToGraduate);
      }
      var amount := MulDiv(totalTokens, sweptQuote, sweptQuote + l.terms.phantomQuote);
      if amount == 0 {
        return Failure(NothingToGraduate);
      }
      return Success(amount);
    }

    method AssertGraduationSeedable(l: Launch, quote: nat, tokens: nat) returns (r: Result<nat, Error>)
      ensures r == Model.AssertSeedable(guard, l, quote, tokens)
    {
      r := PoolTokenAmount(l, quote, tokens);
      if r.Success? && !guard.seedable(l.token, l.pairToken, l.tickSpacing, quote, r.value) {
        return Failure(GuardRefused);
      }
    }

    /** Moves a ready curve's reserves here and credits what actually arrived. */
    method SweepCurve(token: Address, lost: nat) returns (r: Result<Unit, Error>)
      requires token in launches
      modifies `launches, `balance
      ensures RealizesUnit(Model.SweepCurve(old(Snapshot()), token, old(launches[token]), lost),
                           old(Snapshot()), Snapshot(), r)
    {
      var launch := launches[token];
      var graduated := C.Graduate(launch.terms, launch.curve);
      if graduated.Failure? {
        return Failure(Curve(graduated.error));
      }
      var (curve, (quoteSent, tokenOut)) := graduated.value;
      var quoteBefore := Amount(balance, launch.pairToken);
      var arrived := Plus(balance, launch.pairToken, quoteSent - Min(lost, quoteSent));
      var quoteOut := Amount(arrived, launch.pairToken) - quoteBefore;
      if quoteOut == 0 {
        return Failure(NothingToGraduate);
      }
      balance := Plus(arrived, token, tokenOut);
      launch := launch.(curve := curve);
      launch := launch.(sweptQuote := quoteOut, receivedQuote := quoteOut);
      launch := launch.(sweptTokens := tokenOut);
      launch := launch.(sweptAt := timestamp);
      launch := launch.(phase := Swept);
      launches := launches[token := launch];
      return Success(Unit);
    }

    method ReadyLaunch(token: Address) returns (r: Result<nat, Error>)
      ensures r.Success? ==> token in launches
                             && Model.ReadyLaunch(Snapshot(), token) == Success((launches[token], r.value))
      ensures r.Failure? ==> Model.ReadyLaunch(Snapshot(), token) == Failure(r.error)
    {
      if token !in launches {
        return Failure(TokenNotFound);
      }
      var launch := launches[token];
      if launch.phase != NotGraduated {
        return Failure(WrongGraduationPhase);
      }
      if !C.ReadyToGraduate(launch.terms, launch.curve) {
        return Failure(NotReadyToGraduate);
      }
      var quote := C.RealQuoteReserve(launch.curve);
      if quote < 0 {
        return Failure(Underflow);
      }
      return Success(quote);
    }

    method Graduate(token: Address, lost: nat) returns (r: Result<Unit, Error>)
      modifies `launches, `balance
      ensures RealizesUnit(Model.Graduate(guard, old(Snapshot()), token, lost), old(Snapshot()), Snapshot(), r)
      ensures old(Valid()) ==> Valid()
    {
      ghost var before := Snapshot();
      var ready := ReadyLaunch(token);
      if ready.Failure? {
        return Failure(ready.error);
      }
      var seed := AssertGraduationSeedable(launches[token], ready.value, launches[token].curve.trackedTokens);
      if seed.Failure? {
        return Failure(seed.error);
      }
      r := SweepCurve(token, lost);
      if Runs.Inv(guard, before) {
        Runs.ReadyRecord(guard, before, token);
        Runs.SweepCurveKeeps(guard, before, token, before.launches[token], lost);
      }
    }

    method ForceSweptGraduation(token: Address, isOwner: bool, lost: nat) returns (r: Result<Unit, Error>)
      modifies `launches, `balance
      ensures RealizesUnit(Model.ForceSweptGraduation(guard, old(Snapshot()), token, isOwner, lost),
                           old(Snapshot()), Snapshot(), r)
      ensures old(Valid()) ==> Valid()
    {
      ghost var before := Snapshot();
      if !isOwner {
        return Failure(NotOwner);
      }
      var ready := ReadyLaunch(token);
      if ready.Failure? {
        return Failure(ready.error);
      }
      if Model.GraduationSeedable(guard, launches[token], ready.value, launches[token].curve.trackedTokens) {
        return Failure(GraduationStillViable);
      }
      r := SweepCurve(token, lost);
      if Runs.Inv(guard, before) {
        Runs.ReadyRecord(guard, before, token);
        Runs.SweepCurveKeeps(guard, before, token, before.launches[token], lost);
      }
    }

    /** Keeps the tokens that preserve the terminal price and sends the rest to the locker for good. */
    method LockExcessGraduationTokens(launch: Launch, poolTokens: nat) returns (r: Result<Unit, Error>)
      requires poolTokens <= launch.sweptTokens
      modifies `balance
      ensures RealizesUnit(Minus(old(balance), launch.token, launch.sweptTokens - poolTokens, TransferFailed),
                           old(balance), balance, r)
    {
      var unlocked := Minus(balance, launch.token, launch.sweptTokens - poolTokens, TransferFailed);
      if unlocked.Failure? {
        return Failure(unlocked.error);
      }
      balance := unlocked.value;
      return Success(Unit);
    }

    method FundGraduationExecutor(launch: Launch, poolTokens: nat) returns (r: Result<Unit, Error>)
      modifies `balance
      ensures RealizesUnit(FundExecutor(old(balance), launch, poolTokens), old(balance), balance, r)
    {
      var unfunded := Minus(balance, launch.token, poolTokens, TransferFailed);
      if unfunded.Failure? {
        return Failure(unfunded.error);
      }
      var paid := Minus(unfunded.value, launch.pairToken, launch.sweptQuote, TransferFailed);
      if paid.Failure? {
        return Failure(paid.error);
      }
      balance := paid.value;
      return Success(Unit);
    }

    method CreateGraduatedPool(token: Address, mints: bool) returns (r: Result<Unit, Error>)
      modifies `launches, `balance
      ensures RealizesUnit(Model.CreateGraduatedPool(guard, old(Snapshot()), token, mints),
                           old(Snapshot()), Snapshot(), r)
      ensures old(Valid()) ==> Valid()
    {
      ghost var before := Snapshot();
      if Runs.Inv(guard, before) {
        Runs.CreatePoolKeeps(guard, before, token, mints);
      }
      if !executorSet {
        return Failure(GraduationExecutorNotSet);
      }
      if token !in launches {
        return Failure(TokenNotFound);
      }
      var launch := launches[token];
      if launch.phase != Swept {
        return Failure(WrongGraduationPhase);
      }
      var seed := AssertGraduationSeedable(launch, launch.sweptQuote, launch.sweptTokens);
      if seed.Failure? {
        return Failure(seed.error);
      }
      if launch.sweptTokens < seed.value {
        return Failure(Underflow);
      }
      r := SeedPool(token, launch, seed.value, mints);
    }

    /** The second half of `createGraduatedPool`: lock the excess, close the record, mint; all or nothing. */
    method SeedPool(token: Address, launch: Launch, poolTokens: nat, mints: bool) returns (r: Result<Unit, Error>)
      requires poolTokens <= launch.sweptTokens
      modifies `launches, `balance
      ensures var paid := SeedPayments(old(balance), launch, poolTokens, mints);
              && RealizesUnit(paid, old(balance), balance, r)
              && launches == if paid.Success? then old(launches)[token := SeededLaunch(launch, poolTokens)]
                             else old(launches)
    {
      var balanceBefore := balance;
      r := LockExcessGraduationTokens(launch, poolTokens);
      if r.Success? && !mints {
        r := Failure(MintFailed);
      } else if r.Success? {
        r := FundGraduationExecutor(launch, poolTokens);
      }
      if r.Success? {
        launches := launches[token := SeededLaunch(launch, poolTokens)];
      } else {
        balance := balanceBefore;
      }
    }

    method RescueCurveFees(token: Address, isOwner: bool) returns (r: Result<Unit, Error>)
      modifies `launches
      ensures RealizesUnit(Model.RescueCurveFees(old(Snapshot()), token, isOwner), old(Snapshot()), Snapshot(), r)
      ensures old(Valid()) ==> Valid()
    {
      ghost var before := Snapshot();
      if Runs.Inv(guard, before) {
        Runs.RescueCurveFeesKeeps(guard, before, token, isOwner);
      }
      if !isOwner {
        return Failure(NotOwner);
      }
      if token !in launches {
        return Failure(TokenNotFound);
      }
      var rescued := C.RescueFees(launches[token].terms, launches[token].curve);
      if rescued.Failure? {
        return Failure(Curve(rescued.error));
      }
      launches := launches[token := launches[token].(curve := rescued.value)];
      return Success(Unit);
    }

    method SendReserves(launch: Launch) returns (r: Result<Unit, Error>)
      modifies `balance
      ensures RealizesUnit(ReleaseReserves(old(balance), launch), old(balance), balance, r)
    {
      var unquoted := Minus(balance, launch.pairToken, launch.sweptQuote, TransferFailed);
      if unquoted.Failure? {
        return Failure(unquoted.error);
      }
      var paid := Minus(unquoted.value, launch.token, launch.sweptTokens, TransferFailed);
      if paid.Failure? {
        return Failure(paid.error);
      }
      balance := paid.value;
      return Success(Unit);
    }

    method RescueSweptGraduation(token: Address, recipient: Address, isOwner: bool, accepts: bool)
      returns (r: Result<Unit, Error>)
      modifies `launches, `balance
      ensures RealizesUnit(Model.RescueSweptGraduation(old(Snapshot()), token, recipient, isOwner, accepts),
                           old(Snapshot()), Snapshot(), r)
      ensures old(Valid()) ==> Valid()
    {
      hide Runs.Inv, ReleaseReserves;
      ghost var before := Snapshot();
      if Runs.Inv(guard, before) {
        Runs.RescueSweptKeeps(guard, before, token, recipient, isOwner, accepts);
      }
      if !isOwner {
        return Failure(NotOwner);
      }
      if token !in launches {
        return Failure(TokenNotFound);
      }
      var launch := launches[token];
      if launch.phase != Swept {
        return Failure(WrongGraduationPhase);
      }
      if recipient == NONE {
        return Failure(ZeroAddress);
      }
      var availableAt := launch.sweptAt + RESCUE_DELAY;
      if timestamp < availableAt {
        return Failure(GraduationRescueTooEarly(availableAt));
      }
      if !accepts {
        return Failure(RecipientRefused);
      }
      var paid := SendReserves(launch);
      if paid.Failure? {
        return Failure(paid.error);
      }
      launches := launches[token := RescuedLaunch(launch)];
      return Success(Unit);
    }
  }
}
