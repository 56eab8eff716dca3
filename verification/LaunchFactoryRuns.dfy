/** What every run of the launch factory keeps: pooled escrow, one-way phases and single-exit reserves. */
module LaunchFactoryRuns {
  import opened Balances
  import opened FloorMath
  import opened Outcomes
  import C = BondingCurveModel
  import CR = BondingCurveRuns
  import opened MapSums
  import opened LaunchFactoryModel

  // ---- The seed ----

  lemma Reassociate(a: int, b: int, c: int)
    ensures a * b * c == a * (b * c) == a * (c * b)
  {
  }

  /** n / d <= n' / d' orders the floored shares they take of the same whole. */
  lemma FractionMonotone(whole: nat, n: nat, d: nat, n': nat, d': nat)
    requires 0 < d && 0 < d' && n * d' <= n' * d
    ensures MulDiv(whole, n, d) <= MulDiv(whole, n', d')
  {
    var m, m' := MulDiv(whole, n, d), MulDiv(whole, n', d');
    calc {
      m * (d * d');
    ==  { Reassociate(m, d, d'); }
      m * d * d';
    <=  { MulLe(m * d, whole * n, d'); }
      whole * n * d';
    ==  { Reassociate(whole, n, d'); }
      whole * (n * d');
    <=  { MulLe(n * d', n' * d, whole); }
      whole * (n' * d);
    ==  { Reassociate(whole, n', d); }
      whole * n' * d;
    <   { Distribute(m', 1, d'); MulLe(whole * n' + 1, (m' + 1) * d', d); Distribute(whole * n', 1, d); }
      (m' + 1) * d' * d;
    ==  { Reassociate(m' + 1, d', d); }
      (m' + 1) * (d * d');
    }
    CancelLt(m, m' + 1, d * d');
  }

  /** A larger quote side never lowers the token side of the seed. */
  lemma SeedGrowsWithQuote(tokens: nat, quote: nat, quote': nat, phantom: nat)
    requires 0 < phantom && quote <= quote'
    ensures MulDiv(tokens, quote, quote + phantom) <= MulDiv(tokens, quote', quote' + phantom)
  {
    assert quote * (quote' + phantom) <= quote' * (quote + phantom) by {
      Distribute(quote', phantom, quote);
      Distribute(quote, phantom, quote');
      MulLe(quote, quote', phantom);
    }
    FractionMonotone(tokens, quote, quote + phantom, quote', quote' + phantom);
  }

  /**
   Terms accepted at launch bound the seed from below: whatever quote at or above the threshold the curve hands
   over, the pool's token side is at least the amount those terms computed, so it is never zero, and it is within
   one token unit of the price at which the curve stopped.
   */
  lemma LaunchTermsBoundTheSeed(g: Guard, c: C.Config, tickSpacing: nat, quote: nat)
    requires c.Valid() && RequireSeedableTerms(g, c, tickSpacing).Success? && c.graduationThreshold <= quote
    ensures var seed := PoolTokenAmount(c.phantomQuote, quote, c.Reserved());
            && seed.Success?
            && RequireSeedableTerms(g, c, tickSpacing).value <= seed.value <= c.Reserved()
            && seed.value * (c.phantomQuote + quote) <= c.Reserved() * quote
               < (seed.value + 1) * (c.phantomQuote + quote)
  {
    CR.AcceptedEconomics(c);
    SeedGrowsWithQuote(c.Reserved(), c.graduationThreshold, quote, c.phantomQuote);
    ShareOfWhole(c.Reserved(), quote, quote + c.phantomQuote);
    var seed := PoolTokenAmount(c.phantomQuote, quote, c.Reserved()).value;
    Distribute(seed, 1, c.phantomQuote + quote);
  }

  // ---- The invariant ----

  predicate NothingLeft(l: Launch) {
    l.poolQuote == 0 && l.poolTokens == 0 && l.lockedTokens == 0 && l.rescuedQuote == 0 && l.rescuedTokens == 0
  }

  /** What the curve handed over is in exactly one place, given by the phase. */
  ghost predicate PhaseInv(l: Launch) {
    match l.phase
    case NotGraduated =>
      && !l.curve.graduated && l.receivedQuote == 0 && NothingLeft(l)
    case Swept =>
      && l.curve.graduated && NothingLeft(l)
      && l.sweptQuote == l.receivedQuote && l.sweptTokens == l.curve.handedTokens
    case PoolCreated =>
      && l.curve.graduated && l.rescuedQuote == 0 && l.rescuedTokens == 0
      && l.poolQuote == l.receivedQuote && l.poolTokens + l.lockedTokens == l.curve.handedTokens
      && PoolTokenAmount(l.terms.phantomQuote, l.poolQuote, l.curve.handedTokens) == Success(l.poolTokens)
    case Rescued =>
      && l.curve.graduated && l.poolQuote == 0 && l.poolTokens == 0 && l.lockedTokens == 0
      && l.rescuedQuote == l.receivedQuote && l.rescuedTokens == l.curve.handedTokens
  }

  ghost predicate LaunchInv(g: Guard, l: Launch) {
    && l.token != NONE && l.token != l.pairToken
    && CR.Inv(l.terms, l.curve)
    && RequireSeedableTerms(g, l.terms, l.tickSpacing).Success?
    && (!l.phase.Swept? ==> l.sweptQuote == 0 && l.sweptTokens == 0 && l.sweptAt == 0)
    && (!l.phase.NotGraduated? ==> 0 < l.receivedQuote <= l.curve.handedQuote)
    && PhaseInv(l)
  }

  ghost predicate RecordsInv(g: Guard, now: nat, launches: map<Address, Launch>) {
    forall t <- launches ::
      launches[t].token == t && launches[t].sweptAt <= now && LaunchInv(g, launches[t])
  }

  ghost predicate Covered(launches: map<Address, Launch>, balance: map<Address, nat>, surplus: map<Address, nat>) {
    forall a :: Amount(balance, a) == Sum(launches, Owed(a)) + Amount(surplus, a)
  }

  ghost predicate Inv(g: Guard, s: State) {
    RecordsInv(g, s.now, s.launches) && Covered(s.launches, s.balance, s.surplus)
  }

  // ---- Escrow ----

  /** In a state satisfying the invariant, one launch's claim on an asset never exceeds the factory's balance. */
  lemma EscrowCoversLaunch(g: Guard, s: State, t: Address, a: Address)
    requires Inv(g, s) && t in s.launches
    ensures Owed(a)(s.launches[t]) <= Escrowed(s, a) <= Amount(s.balance, a)
  {
    SumCoversEntry(s.launches, t, Owed(a));
  }

  function OwedBefore(launches: map<Address, Launch>, t: Address, a: Address): int {
    if t in launches then Owed(a)(launches[t]) else 0
  }

  /** Replacing one record, with balances moving by exactly the change in what that record is owed. */
  lemma RecordUpdateKeeps(g: Guard, s: State, l: Launch, balance: map<Address, nat>)
    requires Inv(g, s) && l.sweptAt <= s.now && LaunchInv(g, l)
    requires forall a ::
               Amount(balance, a) == Amount(s.balance, a) + Owed(a)(l) - OwedBefore(s.launches, l.token, a)
    ensures Inv(g, s.(launches := s.launches[l.token := l], balance := balance))
  {
    CoverageMoves(s.launches, s.balance, s.surplus, l, balance);
  }

  lemma CoverageMoves(launches: map<Address, Launch>, balance: map<Address, nat>, surplus: map<Address, nat>,
                      l: Launch, balance': map<Address, nat>)
    requires Covered(launches, balance, surplus)
    requires forall a ::
               Amount(balance', a) == Amount(balance, a) + Owed(a)(l) - OwedBefore(launches, l.token, a)
    ensures Covered(launches[l.token := l], balance', surplus)
  {
    forall a ensures Amount(balance', a) == Sum(launches[l.token := l], Owed(a)) + Amount(surplus, a) {
      SumUpdate(launches, l.token, l, Owed(a));
    }
  }

  // ---- One transaction ----

  lemma TwoDeposits(b: map<Address, nat>, p: Address, x: nat, t: Address, y: nat)
    requires p != t
    ensures forall a :: Amount(Plus(Plus(b, p, x), t, y), a)
                        == Amount(b, a) + (if a == p then x else 0) + (if a == t then y else 0)
  {
  }

  // ---- One record ----

  /** What graduating a ready curve hands over, and the record it leaves. */
  lemma SweptRecord(g: Guard, now: nat, l: Launch, lost: nat)
    requires LaunchInv(g, l) && l.phase.NotGraduated? && C.ReadyToGraduate(l.terms, l.curve)
    ensures var raised := C.RealQuoteReserve(l.curve);
            var r := C.Graduate(l.terms, l.curve);
            && raised >= l.terms.graduationThreshold > 0
            && l.curve.trackedTokens == l.terms.Reserved()
            && r.Success? && r.value.1 == (raised, l.terms.Reserved()) && r.value.0.handedQuote == raised
            && (lost < raised ==> LaunchInv(g, SweptLaunch(l, r.value.0, raised - lost, l.terms.Reserved(), now)))
  {
    CR.AcceptedEconomics(l.terms);
    CR.GraduateKeeps(l.terms, l.curve);
    CR.SoldOutMeansThresholdReached(l.terms, l.curve);
  }

  lemma SeededRecord(g: Guard, l: Launch, poolTokens: nat)
    requires LaunchInv(g, l) && l.phase.Swept?
    requires PoolTokenAmount(l.terms.phantomQuote, l.sweptQuote, l.sweptTokens) == Success(poolTokens)
    ensures poolTokens <= l.sweptTokens && LaunchInv(g, SeededLaunch(l, poolTokens))
  {
    ShareOfWhole(l.sweptTokens, l.sweptQuote, l.sweptQuote + l.terms.phantomQuote);
  }

  lemma LaunchKeeps(g: Guard, s: State, token: Address, pair: Address, spacing: nat, c: C.Config, enabled: bool)
    requires Inv(g, s)
    ensures var r := LaunchToken(g, s, token, pair, spacing, c, enabled);
            r.Success? ==> Inv(g, r.value)
  {
    var r := LaunchToken(g, s, token, pair, spacing, c, enabled);
    if r.Success? {
      CR.ReachableInv(c, enabled, []);
      RecordUpdateKeeps(g, s, r.value.launches[token], s.balance);
    }
  }

  /** A trade changes only its own curve, and cannot graduate it. */
  lemma TradeKeeps(g: Guard, s: State, token: Address, op: C.Op)
    requires Inv(g, s)
    ensures var r := Trade(s, token, op);
            r.Success? ==> Inv(g, r.value)
  {
    hide C.Attempt, CR.Inv;
    var r := Trade(s, token, op);
    if r.Success? {
      var l := s.launches[token];
      CR.StepKeeps(l.terms, l.curve, op);
      OnlyGraduateGraduates(l.terms, l.curve, op);
      RecordUpdateKeeps(g, s, r.value.launches[token], s.balance);
    }
  }

  /** Short of `graduate`, no transaction graduates a curve or changes what it has handed over. */
  lemma OnlyGraduateGraduates(c: C.Config, s: C.State, op: C.Op)
    requires c.Valid() && !op.OpGraduate?
    ensures var t := C.Step(c, s, op);
            t.graduated == s.graduated && t.handedQuote == s.handedQuote && t.handedTokens == s.handedTokens
  {
  }

  function SweptState(s: State, l: Launch): State {
    s.(launches := s.launches[l.token := l],
       balance := Plus(Plus(s.balance, l.pairToken, l.sweptQuote), l.token, l.sweptTokens))
  }

  /** Recording a sweep together with its deposits. */
  lemma SweptStateKeeps(g: Guard, s: State, l: Launch)
    requires Inv(g, s) && LaunchInv(g, l) && l.phase.Swept? && l.sweptAt <= s.now
    requires l.token in s.launches && s.launches[l.token].phase.NotGraduated?
    ensures Inv(g, SweptState(s, l))
  {
    TwoDeposits(s.balance, l.pairToken, l.sweptQuote, l.token, l.sweptTokens);
    RecordUpdateKeeps(g, s, l, SweptState(s, l).balance);
  }

  /** A sweep is decided by what the curve hands over. */
  lemma SweepOutcome(s: State, token: Address, l: Launch, lost: nat)
    requires l.token == token && C.Graduate(l.terms, l.curve).Success?
    ensures var (curve, (quote, tokens)) := C.Graduate(l.terms, l.curve).value;
            SweepCurve(s, token, l, lost) ==
            if lost < quote then Success(SweptState(s, SweptLaunch(l, curve, quote - lost, tokens, s.now)))
            else Failure(NothingToGraduate)
  {
  }

  lemma ReadyRecord(g: Guard, s: State, token: Address)
    requires Inv(g, s) && ReadyLaunch(s, token).Success?
    ensures token in s.launches
    ensures var l := s.launches[token];
            && l.token == token && LaunchInv(g, l)
            && l.phase.NotGraduated? && C.ReadyToGraduate(l.terms, l.curve)
            && ReadyLaunch(s, token).value == (l, C.RealQuoteReserve(l.curve))
  {
  }

  /** The record a sweep of launch `l` writes, when its quote asset loses `lost` on the way. */
  function AfterSweep(s: State, l: Launch, lost: nat): Launch
    requires C.Graduate(l.terms, l.curve).Success? && lost <= C.Graduate(l.terms, l.curve).value.1.0
  {
    var (curve, (quote, tokens)) := C.Graduate(l.terms, l.curve).value;
    SweptLaunch(l, curve, quote - lost, tokens, s.now)
  }

  /** A ready launch can always be swept, unless its quote asset delivers nothing at all. */
  lemma SweepCurveKeeps(g: Guard, s: State, token: Address, l: Launch, lost: nat)
    requires Inv(g, s) && token in s.launches && l == s.launches[token] && l.phase.NotGraduated?
    requires C.ReadyToGraduate(l.terms, l.curve)
    ensures C.RealQuoteReserve(l.curve) >= l.terms.graduationThreshold > 0
    ensures l.curve.trackedTokens == l.terms.Reserved()
    ensures C.Graduate(l.terms, l.curve).Success?
    ensures C.Graduate(l.terms, l.curve).value.1 == (C.RealQuoteReserve(l.curve), l.terms.Reserved())
    ensures C.Graduate(l.terms, l.curve).value.0.handedQuote == C.RealQuoteReserve(l.curve)
    ensures SweepCurve(s, token, l, lost) ==
            if lost < C.RealQuoteReserve(l.curve) then Success(SweptState(s, AfterSweep(s, l, lost)))
            else Failure(NothingToGraduate)
    ensures lost < C.RealQuoteReserve(l.curve) ==> Inv(g, SweptState(s, AfterSweep(s, l, lost)))
  {
    hide C.Graduate, SweepCurve, SweptState, LaunchInv, C.ReadyToGraduate;
    SweptRecord(g, s.now, l, lost);
    SweepOutcome(s, token, l, lost);
    if lost < C.RealQuoteReserve(l.curve) {
      SweptStateKeeps(g, s, AfterSweep(s, l, lost));
    }
  }

  /** The seed's payments are covered, and nothing leaves but what this launch was owed. */
  lemma SeedPaymentsAreCovered(b: map<Address, nat>, l: Launch, seed: nat)
    requires seed <= l.sweptTokens <= Amount(b, l.token) && l.sweptQuote <= Amount(b, l.pairToken)
    requires l.token != l.pairToken && l.phase.Swept?
    ensures var paid := SeedPayments(b, l, seed, true);
            && paid.Success?
            && forall a :: Amount(paid.value, a) == Amount(b, a) + Owed(a)(SeededLaunch(l, seed)) - Owed(a)(l)
    ensures SeedPayments(b, l, seed, false) == Failure(MintFailed)
  {
  }

  function SeededState(s: State, l: Launch, seed: nat, balance: map<Address, nat>): State
    requires seed <= l.sweptTokens
  {
    s.(launches := s.launches[l.token := SeededLaunch(l, seed)], balance := balance)
  }

  lemma SeededStateKeeps(g: Guard, s: State, l: Launch, seed: nat)
    requires Inv(g, s) && l.token in s.launches && l == s.launches[l.token] && l.phase.Swept?
    requires PoolTokenAmount(l.terms.phantomQuote, l.sweptQuote, l.sweptTokens) == Success(seed)
    ensures seed <= l.sweptTokens && SeedPayments(s.balance, l, seed, true).Success?
    ensures SeedPayments(s.balance, l, seed, false) == Failure(MintFailed)
    ensures Inv(g, SeededState(s, l, seed, SeedPayments(s.balance, l, seed, true).value))
  {
    SeededRecord(g, l, seed);
    EscrowCoversLaunch(g, s, l.token, l.token);
    EscrowCoversLaunch(g, s, l.token, l.pairToken);
    SeedPaymentsAreCovered(s.balance, l, seed);
    RecordUpdateKeeps(g, s, SeededLaunch(l, seed), SeedPayments(s.balance, l, seed, true).value);
  }

  /** With the payments covered, seeding a Swept launch is up to the executor and Uniswap. */
  lemma SeedOutcome(g: Guard, s: State, token: Address, l: Launch, seed: nat, mints: bool)
    requires token in s.launches && l == s.launches[token] && l.token == token && l.phase.Swept?
    requires AssertSeedable(g, l, l.sweptQuote, l.sweptTokens) == Success(seed)
    requires seed <= l.sweptTokens && SeedPayments(s.balance, l, seed, true).Success?
    requires SeedPayments(s.balance, l, seed, false) == Failure(MintFailed)
    ensures CreateGraduatedPool(g, s, token, mints) ==
            if !s.executorSet then Failure(GraduationExecutorNotSet)
            else if !mints then Failure(MintFailed)
            else Success(SeededState(s, l, seed, SeedPayments(s.balance, l, seed, true).value))
  {
  }

  lemma CreatePoolKeeps(g: Guard, s: State, token: Address, mints: bool)
    requires Inv(g, s)
    ensures var r := CreateGraduatedPool(g, s, token, mints);
            && (r.Success? ==> Inv(g, r.value))
            && (r.Failure? ==> !r.error.Underflow? && !r.error.TransferFailed?)
  {
    if token in s.launches && s.launches[token].phase.Swept? {
      var l := s.launches[token];
      var seed := AssertSeedable(g, l, l.sweptQuote, l.sweptTokens);
      if seed.Success? {
        SeededStateKeeps(g, s, l, seed.value);
        SeedOutcome(g, s, token, l, seed.value, mints);
      }
    }
  }

  lemma RescueCurveFeesKeeps(g: Guard, s: State, token: Address, isOwner: bool)
    requires Inv(g, s)
    ensures var r := RescueCurveFees(s, token, isOwner);
            && (r.Success? <==>
                  isOwner && token in s.launches
                  && (s.launches[token].curve.quoteFeeBalance != 0 || s.launches[token].curve.creatorTaxBalance != 0))
            && (r.Success? ==>
                  && Inv(g, r.value)
                  && SameRecord(s.launches[token], r.value.launches[token]) && r.value.balance == s.balance
                  && r.value.launches[token].curve.quoteFeeBalance == 0
                  && r.value.launches[token].curve.creatorTaxBalance == 0)
  {
    var r := RescueCurveFees(s, token, isOwner);
    if r.Success? {
      var l := s.launches[token];
      CR.RescueKeeps(l.terms, l.curve);
      OnlyGraduateGraduates(l.terms, l.curve, C.OpRescueFees);
      RecordUpdateKeeps(g, s, r.value.launches[token], s.balance);
    }
  }

  lemma RescueSweptKeeps(g: Guard, s: State, token: Address, to: Address, isOwner: bool, accepts: bool)
    requires Inv(g, s)
    ensures var r := RescueSweptGraduation(s, token, to, isOwner, accepts);
            && (r.Success? ==> Inv(g, r.value))
            && (r.Failure? ==> !r.error.TransferFailed? && !r.error.Underflow?)
  {
    hide ReleaseReserves, Inv;
    if token in s.launches && s.launches[token].phase.Swept? {
      RescuedStateKeeps(g, s, token, s.launches[token]);
    }
  }

  lemma RescuedStateKeeps(g: Guard, s: State, token: Address, l: Launch)
    requires Inv(g, s) && token in s.launches && l == s.launches[token] && l.phase.Swept?
    ensures l.token == token && ReleaseReserves(s.balance, l).Success?
    ensures var paid := ReleaseReserves(s.balance, l).value;
            Inv(g, s.(launches := s.launches[token := RescuedLaunch(l)], balance := paid))
  {
    hide ReleaseReserves, CR.Inv;
    EscrowCoversLaunch(g, s, token, token);
    EscrowCoversLaunch(g, s, token, l.pairToken);
    RescuePayments(s.balance, l);
    RecordUpdateKeeps(g, s, RescuedLaunch(l), ReleaseReserves(s.balance, l).value);
  }

  lemma RescuePayments(b: map<Address, nat>, l: Launch)
    requires l.sweptTokens <= Amount(b, l.token) && l.sweptQuote <= Amount(b, l.pairToken)
    requires l.token != l.pairToken && l.phase.Swept?
    ensures var paid := ReleaseReserves(b, l);
            && paid.Success?
            && forall a :: Amount(paid.value, a) == Amount(b, a) + Owed(a)(RescuedLaunch(l)) - Owed(a)(l)
  {
  }

  lemma IdleKeeps(g: Guard, s: State, op: Op)
    requires Inv(g, s) && (op.OpSetExecutor? || op.OpDonate? || op.OpWait?)
    ensures Inv(g, Step(g, s, op))
  {
    if op.OpDonate? {
      var asset, amount := op.asset, op.amount;
      forall a ensures Amount(Plus(s.balance, asset, amount), a)
                       == Sum(s.launches, Owed(a)) + Amount(Plus(s.surplus, asset, amount), a) {
        assert Amount(s.balance, a) == Sum(s.launches, Owed(a)) + Amount(s.surplus, a);
      }
      assert Covered(s.launches, Plus(s.balance, asset, amount), Plus(s.surplus, asset, amount));
    }
  }

  // ---- Runs ----

  lemma StepKeeps(g: Guard, s: State, op: Op)
    requires Inv(g, s)
    ensures Inv(g, Step(g, s, op))
  {
    hide LaunchToken, Trade, CreateGraduatedPool, RescueCurveFees, RescueSweptGraduation, SweepCurve, Inv, C.Graduate;
    match op
    case OpLaunch(token, pair, spacing, c, enabled) => LaunchKeeps(g, s, token, pair, spacing, c, enabled);
    case OpTrade(token, op) => TradeKeeps(g, s, token, op);
    case OpGraduate(token, lost) =>
      if ReadyLaunch(s, token).Success? {
        ReadyRecord(g, s, token);
        SweepCurveKeeps(g, s, token, s.launches[token], lost);
      }
    case OpForceSwept(token, _, lost) =>
      if ReadyLaunch(s, token).Success? {
        ReadyRecord(g, s, token);
        SweepCurveKeeps(g, s, token, s.launches[token], lost);
      }
    case OpCreatePool(token, mints) => CreatePoolKeeps(g, s, token, mints);
    case OpRescueCurveFees(token, isOwner) => RescueCurveFeesKeeps(g, s, token, isOwner);
    case OpRescueSwept(token, to, isOwner, accepts) => RescueSweptKeeps(g, s, token, to, isOwner, accepts);
    case OpSetExecutor => IdleKeeps(g, s, op);
    case OpDonate(asset, amount) => IdleKeeps(g, s, op);
    case OpWait(seconds) => IdleKeeps(g, s, op);
  }

  lemma {:induction false} RunKeeps(g: Guard, s: State, ops: seq<Op>)
    requires Inv(g, s)
    ensures Inv(g, Run(g, s, ops))
    decreases |ops|
  {
    if ops != [] {
      StepKeeps(g, s, ops[0]);
      RunKeeps(g, Step(g, s, ops[0]), ops[1..]);
    }
  }

  lemma ReachableInv(g: Guard, now: nat, executorSet: bool, ops: seq<Op>)
    ensures Inv(g, Run(g, Deployed(now, executorSet), ops))
  {
    RunKeeps(g, Deployed(now, executorSet), ops);
  }

  // ---- What users can rely on ----

  /** No transaction runs into a checked subtraction or a balance it cannot pay from. */
  lemma NeverShort(g: Guard, s: State, op: Op)
    requires Inv(g, s)
    ensures Attempt(g, s, op) != Failure(TransferFailed) && Attempt(g, s, op) != Failure(Underflow)
  {
    hide Graduate, ForceSweptGraduation, CreateGraduatedPool, RescueSweptGraduation, LaunchInv;
    match op
    case OpGraduate(token, lost) => SweepsNeverShort(g, s, token, true, lost);
    case OpForceSwept(token, isOwner, lost) => SweepsNeverShort(g, s, token, isOwner, lost);
    case OpCreatePool(token, mints) => CreatePoolKeeps(g, s, token, mints);
    case OpRescueSwept(token, to, isOwner, accepts) => RescueSweptKeeps(g, s, token, to, isOwner, accepts);
    case OpLaunch(token, pair, spacing, c, enabled) =>
    case OpTrade(token, op) =>
    case OpRescueCurveFees(token, isOwner) =>
    case _ =>
  }

  lemma SweepsNeverShort(g: Guard, s: State, token: Address, isOwner: bool, lost: nat)
    requires Inv(g, s)
    ensures var r := Graduate(g, s, token, lost); r != Failure(TransferFailed) && r != Failure(Underflow)
    ensures var r := ForceSweptGraduation(g, s, token, isOwner, lost);
            r != Failure(TransferFailed) && r != Failure(Underflow)
  {
    ReadyNeverUnderflows(g, s, token);
    if ReadyLaunch(s, token).Success? {
      ReadyRecord(g, s, token);
      SweepCurveKeeps(g, s, token, s.launches[token], lost);
    }
  }

  lemma ReadyNeverUnderflows(g: Guard, s: State, token: Address)
    requires Inv(g, s)
    ensures ReadyLaunch(s, token) != Failure(TransferFailed) && ReadyLaunch(s, token) != Failure(Underflow)
  {
  }

  /**
   In every reachable state and for every asset, the factory holds exactly what it owes its Swept launches plus
   what was sent to it unasked, so no launch's seed or rescue is ever short, whoever shares its quote asset.
   */
  lemma EscrowAlwaysCovered(g: Guard, now: nat, executorSet: bool, ops: seq<Op>, a: Address, op: Op)
    ensures var s := Run(g, Deployed(now, executorSet), ops);
            && Amount(s.balance, a) == Escrowed(s, a) + Amount(s.surplus, a)
            && (forall t <- s.launches :: Owed(a)(s.launches[t]) <= Escrowed(s, a))
            && Attempt(g, s, op) != Failure(TransferFailed) && Attempt(g, s, op) != Failure(Underflow)
  {
    var s := Run(g, Deployed(now, executorSet), ops);
    ReachableInv(g, now, executorSet, ops);
    forall t <- s.launches ensures Owed(a)(s.launches[t]) <= Escrowed(s, a) {
      EscrowCoversLaunch(g, s, t, a);
    }
    NeverShort(g, s, op);
  }

  /** The token whose launch a transaction concerns. */
  function Subject(op: Op): Address {
    match op
    case OpLaunch(token, _, _, _, _) => token
    case OpTrade(token, _) => token
    case OpGraduate(token, _) => token
    case OpForceSwept(token, _, _) => token
    case OpCreatePool(token, _) => token
    case OpRescueCurveFees(token, _) => token
    case OpRescueSwept(token, _, _, _) => token
    case _ => NONE
  }

  predicate PhaseFollows(p: Phase, q: Phase) {
    p == q || p.NotGraduated? || (p.Swept? && !q.NotGraduated?)
  }

  /** The same record, up to what still happens at the curve's own address. */
  predicate SameRecord(l: Launch, l': Launch) {
    && l' == l.(curve := l'.curve)
    && l'.curve.handedQuote == l.curve.handedQuote && l'.curve.handedTokens == l.curve.handedTokens
  }

  predicate Advances(l: Launch, l': Launch) {
    && l'.token == l.token && l'.pairToken == l.pairToken && l'.tickSpacing == l.tickSpacing && l'.terms == l.terms
    && PhaseFollows(l.phase, l'.phase)
    && (l'.phase == l.phase ==> SameRecord(l, l'))
  }

  /** A transaction about one token leaves every other launch's record exactly as it was. */
  lemma OtherLaunchesUntouched(g: Guard, s: State, op: Op, t: Address)
    requires t in s.launches
    ensures var s' := Step(g, s, op);
            && t in s'.launches
            && (t != Subject(op) ==> s'.launches[t] == s.launches[t])
            && Advances(s.launches[t], s'.launches[t])
  {
    if op.OpTrade? || op.OpRescueCurveFees? {
      CurveOpTouchesOneCurve(g, s, op, t);
    } else if (op.OpGraduate? || op.OpForceSwept?) && op.token in s.launches {
      SweepTouchesOneRecord(s, op.token, s.launches[op.token], op.lost, t);
    }
  }

  lemma SweepTouchesOneRecord(s: State, token: Address, l: Launch, lost: nat, t: Address)
    requires token in s.launches && l == s.launches[token] && t in s.launches
    ensures var r := SweepCurve(s, token, l, lost);
            r.Success? ==>
              && t in r.value.launches
              && (t != token ==> r.value.launches[t] == s.launches[t])
              && (l.phase.NotGraduated? ==> Advances(s.launches[t], r.value.launches[t]))
  {
  }

  lemma CurveOpTouchesOneCurve(g: Guard, s: State, op: Op, t: Address)
    requires t in s.launches && (op.OpTrade? || op.OpRescueCurveFees?)
    ensures var s' := Step(g, s, op);
            && t in s'.launches && SameRecord(s.launches[t], s'.launches[t])
            && (t != op.token ==> s'.launches[t] == s.launches[t])
  {
    var l := s.launches[t];
    if t == op.token && !(op.OpTrade? && op.op.OpGraduate?) {
      OnlyGraduateGraduates(l.terms, l.curve, if op.OpTrade? then op.op else C.OpRescueFees);
    }
  }

  /**
   Phases only move NotGraduated -> Swept -> PoolCreated or Rescued. A launch found in the phase it was in before
   has the same record: nothing was taken from its reserves in between, and a terminal record never changes.
   */
  lemma {:induction false} PhasesOnlyAdvance(g: Guard, s: State, ops: seq<Op>, t: Address)
    requires t in s.launches
    ensures var s' := Run(g, s, ops);
            && t in s'.launches && Advances(s.launches[t], s'.launches[t])
            && (s.launches[t].phase in {PoolCreated, Rescued} ==> SameRecord(s.launches[t], s'.launches[t]))
    decreases |ops|
  {
    if ops != [] {
      OtherLaunchesUntouched(g, s, ops[0], t);
      PhasesOnlyAdvance(g, Step(g, s, ops[0]), ops[1..], t);
    }
  }

  /**
   Each launch's reserves leave exactly once: what the curve handed over is still in escrow, or went to the pool
   and the locker, or went to the rescue recipient, and never to two of them.
   */
  lemma ReservesLeaveOnce(g: Guard, now: nat, executorSet: bool, ops: seq<Op>, t: Address)
    ensures var s := Run(g, Deployed(now, executorSet), ops);
            t in s.launches ==>
              var l := s.launches[t];
              && l.receivedQuote == l.sweptQuote + l.poolQuote + l.rescuedQuote
              && (l.curve.graduated <==> !l.phase.NotGraduated?)
              && (l.curve.graduated ==>
                    && l.terms.Reserved() == l.sweptTokens + l.poolTokens + l.lockedTokens + l.rescuedTokens
                    && l.terms.graduationThreshold <= l.curve.handedQuote)
              && (0 < l.poolQuote + l.poolTokens + l.lockedTokens <==> l.phase.PoolCreated?)
              && (0 < l.rescuedQuote + l.rescuedTokens <==> l.phase.Rescued?)
  {
    ReachableInv(g, now, executorSet, ops);
  }

  lemma Exits(g: Guard, s: State, t: Address, lost: nat)
    requires Inv(g, s) && ReadyLaunch(s, t).Success?
    ensures var l := s.launches[t];
            var raised := C.RealQuoteReserve(l.curve);
            var viable := GraduationSeedable(g, l, raised, l.terms.Reserved());
            && l.terms.graduationThreshold <= raised
            && (Graduate(g, s, t, lost).Success? <==> viable && lost < raised)
            && (ForceSweptGraduation(g, s, t, true, lost).Success? <==> !viable && lost < raised)
  {
    hide C.Graduate, SweepCurve, Inv, LaunchInv, C.ReadyToGraduate, SweptState;
    ReadyRecord(g, s, t);
    SweepCurveKeeps(g, s, t, s.launches[t], lost);
  }

  /**
   In every reachable state a launch that is ready to graduate has exactly one way forward: `graduate` if its seed
   is viable, `forceSweptGraduation` if it is not, and that one works unless the quote asset delivers nothing.
   */
  lemma ReadyLaunchHasExactlyOneExit(g: Guard, now: nat, executorSet: bool, ops: seq<Op>, t: Address, lost: nat)
    ensures var s := Run(g, Deployed(now, executorSet), ops);
            ReadyLaunch(s, t).Success? ==>
              var l := s.launches[t];
              var raised := C.RealQuoteReserve(l.curve);
              var viable := GraduationSeedable(g, l, raised, l.terms.Reserved());
              && l.terms.graduationThreshold <= raised
              && (Graduate(g, s, t, lost).Success? <==> viable && lost < raised)
              && (ForceSweptGraduation(g, s, t, true, lost).Success? <==> !viable && lost < raised)
  {
    var s := Run(g, Deployed(now, executorSet), ops);
    ReachableInv(g, now, executorSet, ops);
    if ReadyLaunch(s, t).Success? {
      Exits(g, s, t, lost);
    }
  }

  /**
   The preflight run before the irreversible sweep still holds after it. A launch swept by `graduate` out of an
   exactly delivering asset can be seeded, whatever else happens meanwhile, until someone seeds it or it is rescued;
   its pool then gets at least the tokens its launch terms implied.
   */
  lemma GraduatedLaunchStaysSeedable(g: Guard, now: nat, executorSet: bool, ops: seq<Op>, t: Address, more: seq<Op>)
    ensures var s := Run(g, Deployed(now, executorSet), ops);
            var swept := Graduate(g, s, t, 0);
            swept.Success? ==>
              var later := Run(g, swept.value, more);
              && t in later.launches
              && (later.launches[t].phase.Swept? && later.executorSet ==>
                    var l := later.launches[t];
                    var pool := CreateGraduatedPool(g, later, t, true);
                    && pool.Success?
                    && pool.value.launches[t].poolQuote == C.RealQuoteReserve(s.launches[t].curve)
                    && RequireSeedableTerms(g, l.terms, l.tickSpacing).Success?
                    && RequireSeedableTerms(g, l.terms, l.tickSpacing).value <= pool.value.launches[t].poolTokens)
  {
    var s := Run(g, Deployed(now, executorSet), ops);
    ReachableInv(g, now, executorSet, ops);
    if Graduate(g, s, t, 0).Success? {
      var swept := Graduate(g, s, t, 0).value;
      SweptByGraduate(g, s, t);
      RunKeeps(g, swept, more);
      PhasesOnlyAdvance(g, swept, more, t);
      var later := Run(g, swept, more);
      if later.launches[t].phase.Swept? && later.executorSet {
        SeedSwept(g, later, t);
      }
    }
  }

  /** What `graduate` leaves behind when nothing is lost on the way. */
  lemma SweptByGraduate(g: Guard, s: State, t: Address)
    requires Inv(g, s) && Graduate(g, s, t, 0).Success?
    ensures var s' := Graduate(g, s, t, 0).value;
            && Inv(g, s')
            && var l := s'.launches[t];
               && l.phase.Swept? && l.sweptTokens == l.terms.Reserved()
               && l.sweptQuote == C.RealQuoteReserve(s.launches[t].curve) >= l.terms.graduationThreshold
               && AssertSeedable(g, l, l.sweptQuote, l.sweptTokens).Success?
  {
    hide C.Graduate, SweepCurve, LaunchInv, C.ReadyToGraduate;
    ReadyRecord(g, s, t);
    SweepCurveKeeps(g, s, t, s.launches[t], 0);
  }

  lemma SeedSwept(g: Guard, s: State, t: Address)
    requires Inv(g, s) && s.executorSet && t in s.launches && s.launches[t].phase.Swept?
    requires var l := s.launches[t]; AssertSeedable(g, l, l.sweptQuote, l.sweptTokens).Success?
    ensures var l := s.launches[t];
            var pool := CreateGraduatedPool(g, s, t, true);
            && pool.Success? && pool.value.launches[t].poolQuote == l.sweptQuote
            && RequireSeedableTerms(g, l.terms, l.tickSpacing).Success?
            && (l.terms.graduationThreshold <= l.sweptQuote ==>
                  RequireSeedableTerms(g, l.terms, l.tickSpacing).value <= pool.value.launches[t].poolTokens)
  {
    var l := s.launches[t];
    if l.terms.graduationThreshold <= l.sweptQuote {
      LaunchTermsBoundTheSeed(g, l.terms, l.tickSpacing, l.sweptQuote);
    }
    CreatePoolKeeps(g, s, t, true);
  }

  /** A Swept launch can be rescued from exactly seven days after its sweep on, and its reserves are there. */
  lemma RescueOpensAfterTheDelay(g: Guard, now: nat, executorSet: bool, ops: seq<Op>, t: Address, to: Address)
    requires to != NONE
    ensures var s := Run(g, Deployed(now, executorSet), ops);
            t in s.launches && s.launches[t].phase.Swept? ==>
              var r := RescueSweptGraduation(s, t, to, true, true);
              && (r.Success? <==> s.launches[t].sweptAt + RESCUE_DELAY <= s.now)
              && (r.Success? ==> r.value.launches[t].rescuedTokens == s.launches[t].terms.Reserved()
                                 && r.value.launches[t].rescuedQuote == s.launches[t].receivedQuote)
  {
    ReachableInv(g, now, executorSet, ops);
    RescueSweptKeeps(g, Run(g, Deployed(now, executorSet), ops), t, to, true, true);
  }

  // ---- Exactly delivering quote assets ----

  predicate Exact(op: Op) {
    (op.OpGraduate? || op.OpForceSwept?) ==> op.lost == 0
  }

  ghost predicate AllReceived(s: State) {
    forall t <- s.launches :: !s.launches[t].phase.NotGraduated? ==>
      s.launches[t].receivedQuote == s.launches[t].curve.handedQuote
  }

  lemma ExactStepReceivesEverything(g: Guard, s: State, op: Op)
    requires Inv(g, s) && AllReceived(s) && Exact(op)
    ensures AllReceived(Step(g, s, op))
  {
    var s' := Step(g, s, op);
    forall t <- s'.launches | !s'.launches[t].phase.NotGraduated?
      ensures s'.launches[t].receivedQuote == s'.launches[t].curve.handedQuote
    {
      if t !in s.launches {
        NewLaunchesAreNotGraduated(g, s, op, t);
      } else if SweepsReady(s, op, t) {
        ReadyRecord(g, s, t);
        SweepCurveKeeps(g, s, t, s.launches[t], 0);
        SweepsOrNothing(g, s, op, t);
      } else {
        OnlySweepsReceive(g, s, op, t);
      }
    }
  }

  predicate SweepsReady(s: State, op: Op, t: Address) {
    (op.OpGraduate? || op.OpForceSwept?) && op.token == t && ReadyLaunch(s, t).Success?
  }

  lemma NewLaunchesAreNotGraduated(g: Guard, s: State, op: Op, t: Address)
    requires t !in s.launches && t in Step(g, s, op).launches
    ensures Step(g, s, op).launches[t].phase.NotGraduated?
  {
  }

  lemma SweepsOrNothing(g: Guard, s: State, op: Op, t: Address)
    requires SweepsReady(s, op, t)
    ensures Step(g, s, op) == s || SweepCurve(s, t, s.launches[t], op.lost) == Success(Step(g, s, op))
  {
  }

  /** Outside the two sweeps, no transaction changes what a launch received or its curve handed over. */
  lemma OnlySweepsReceive(g: Guard, s: State, op: Op, t: Address)
    requires t in s.launches && !SweepsReady(s, op, t)
    ensures var l, l' := s.launches[t], Step(g, s, op).launches[t];
            && l'.receivedQuote == l.receivedQuote && l'.curve.handedQuote == l.curve.handedQuote
            && (l'.phase.NotGraduated? <==> l.phase.NotGraduated?)
  {
    OtherLaunchesUntouched(g, s, op, t);
  }

  lemma {:induction false} ExactRunReceivesEverything(g: Guard, s: State, ops: seq<Op>)
    requires Inv(g, s) && AllReceived(s) && forall op <- ops :: Exact(op)
    ensures AllReceived(Run(g, s, ops))
    decreases |ops|
  {
    if ops != [] {
      StepKeeps(g, s, ops[0]);
      ExactStepReceivesEverything(g, s, ops[0]);
      ExactRunReceivesEverything(g, Step(g, s, ops[0]), ops[1..]);
    }
  }

  /**
   When quote assets deliver exactly, every pool ever created holds all the quote its curve had raised, at least
   the tokens its launch terms computed, and a price within one token unit of the curve's last one.
   */
  lemma PoolsOpenAtTheTerminalPrice(g: Guard, now: nat, executorSet: bool, ops: seq<Op>, t: Address)
    requires forall op <- ops :: Exact(op)
    ensures var s := Run(g, Deployed(now, executorSet), ops);
            t in s.launches && s.launches[t].phase.PoolCreated? ==> OpensAtTerminalPrice(g, s.launches[t])
  {
    var s := Run(g, Deployed(now, executorSet), ops);
    ReachableInv(g, now, executorSet, ops);
    ExactRunReceivesEverything(g, Deployed(now, executorSet), ops);
    if t in s.launches && s.launches[t].phase.PoolCreated? {
      PoolPrice(g, s.launches[t]);
    }
  }

  /** All raised quote, at least the launch-time seed, and the curve's last price to within one token unit. */
  predicate OpensAtTerminalPrice(g: Guard, l: Launch) {
    var lastQuoteReserve := l.terms.phantomQuote + l.curve.handedQuote;
    var launchSeed := RequireSeedableTerms(g, l.terms, l.tickSpacing);
    && l.poolQuote == l.curve.handedQuote
    && launchSeed.Success? && 0 < launchSeed.value <= l.poolTokens
    && l.poolTokens * lastQuoteReserve <= l.terms.Reserved() * l.poolQuote < (l.poolTokens + 1) * lastQuoteReserve
  }

  lemma PoolPrice(g: Guard, l: Launch)
    requires LaunchInv(g, l) && l.phase.PoolCreated? && l.receivedQuote == l.curve.handedQuote
    ensures OpensAtTerminalPrice(g, l)
  {
    LaunchTermsBoundTheSeed(g, l.terms, l.tickSpacing, l.poolQuote);
  }
}
