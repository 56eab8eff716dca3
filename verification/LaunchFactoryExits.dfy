/** What decides a ready or a swept launch's way out of PonsV2LaunchFactory: the guard's verdict, and the clock. */
module LaunchFactoryExits {
  import opened Balances
  import opened FloorMath
  import opened Outcomes
  import C = BondingCurveModel
  import CR = BondingCurveRuns
  import opened MapSums
  import opened LaunchFactoryModel
  import opened LaunchFactoryRuns

  /** A state some run of transactions reaches. */
  ghost predicate Reachable(g: Guard, s: State) {
    exists start, executorSet, ops :: s == Run(g, Deployed(start, executorSet), ops)
  }

  lemma ReachableKeepsInv(g: Guard, s: State)
    requires Reachable(g, s)
    ensures Inv(g, s)
  {
    hide Run, Inv;
    var start, executorSet, ops :| s == Run(g, Deployed(start, executorSet), ops);
    ReachableInv(g, start, executorSet, ops);
  }

  // ---- The rescue delay ----

  /** A transaction that sweeps one launch's curve. */
  function Sweep(g: Guard, s: State, t: Address, forced: bool, lost: nat): Result<State, Error> {
    if forced then ForceSweptGraduation(g, s, t, true, lost) else Graduate(g, s, t, lost)
  }

  /** Either sweep stamps the launch with the time of the block it is in, and records what arrived. */
  lemma SweepStampsTheTime(g: Guard, s: State, t: Address, forced: bool, lost: nat)
    requires Inv(g, s) && Sweep(g, s, t, forced, lost).Success?
    ensures t in s.launches
    ensures var swept := Sweep(g, s, t, forced, lost).value;
            && Inv(g, swept) && t in swept.launches
            && swept.launches[t].phase.Swept? && swept.launches[t].sweptAt == s.now
            && swept.launches[t].receivedQuote == C.RealQuoteReserve(s.launches[t].curve) - lost
  {
    hide C.Graduate, SweepCurve, Inv, LaunchInv, C.ReadyToGraduate;
    ReadyRecord(g, s, t);
    SweepCurveKeeps(g, s, t, s.launches[t], lost);
  }

  /**
   The delay is measured by the clock of the sweep itself: in every state of every run after it in which the launch
   is still waiting, a rescue gets through exactly for the owner, to a recipient that takes it, and from the moment
   on that lies seven days after the sweep. It then hands over both reserves whole.
   */
  lemma RescueWaitsForSevenDays(g: Guard, s: State, t: Address, forced: bool, lost: nat, more: seq<Op>,
                                to: Address, isOwner: bool, accepts: bool)
    requires Reachable(g, s) && Sweep(g, s, t, forced, lost).Success?
    ensures var u := Run(g, Sweep(g, s, t, forced, lost).value, more);
            && t in u.launches
            && (u.launches[t].phase.Swept? ==>
                  var r := RescueSweptGraduation(u, t, to, isOwner, accepts);
                  && (r.Success? <==> isOwner && to != NONE && accepts && s.now + 604_800 <= u.now)
                  && (isOwner && to != NONE && u.now < s.now + 604_800 ==>
                        r == Failure(GraduationRescueTooEarly(s.now + 604_800)))
                  && (r.Success? ==>
                        && r.value.launches[t].rescuedTokens == u.launches[t].terms.Reserved()
                        && r.value.launches[t].rescuedQuote == u.launches[t].receivedQuote))
  {
    hide Run, Sweep, RescueSweptGraduation, Inv, LaunchInv;
    ReachableKeepsInv(g, s);
    SweepStampsTheTime(g, s, t, forced, lost);
    var swept := Sweep(g, s, t, forced, lost).value;
    PhasesOnlyAdvance(g, swept, more, t);
    RunKeeps(g, swept, more);
    var u := Run(g, swept, more);
    if u.launches[t].phase.Swept? {
      RescueDecision(g, u, t, to, isOwner, accepts);
    }
  }

  lemma RescueDecision(g: Guard, u: State, t: Address, to: Address, isOwner: bool, accepts: bool)
    requires Inv(g, u) && t in u.launches && u.launches[t].phase.Swept?
    ensures var r, opens := RescueSweptGraduation(u, t, to, isOwner, accepts), u.launches[t].sweptAt + 604_800;
            && (r.Success? <==> isOwner && to != NONE && accepts && opens <= u.now)
            && (isOwner && to != NONE && u.now < opens ==> r == Failure(GraduationRescueTooEarly(opens)))
            && (r.Success? ==>
                  && r.value.launches[t].rescuedTokens == u.launches[t].terms.Reserved()
                  && r.value.launches[t].rescuedQuote == u.launches[t].receivedQuote)
  {
    hide ReleaseReserves;
    RescuedStateKeeps(g, u, t, u.launches[t]);
  }

  // ---- The guard's verdict ----

  /**
   A launch: fresh token, and terms whose floored seed at the threshold is positive and seedable on either side of
   the pool. It starts on a fresh curve under just those terms.
   */
  lemma GuardDecidesTheLaunch(g: Guard, s: State, token: Address, pair: Address, spacing: nat, c: C.Config,
                              enabled: bool) returns (amount: nat)
    requires c.Valid()
    ensures IsFloor(amount, c.Reserved() * c.graduationThreshold, c.phantomQuote + c.graduationThreshold)
    ensures var r := LaunchToken(g, s, token, pair, spacing, c, enabled);
            && (r.Success? <==>
                  && token != NONE && token != pair && token !in s.launches
                  && (forall t <- s.launches :: s.launches[t].pairToken != token)
                  && 0 < amount && g.seedableEitherOrdering(spacing, c.graduationThreshold, amount))
            && (r.Success? ==>
                  && token in r.value.launches
                  && var l := r.value.launches[token];
                     && l.token == token && l.pairToken == pair && l.tickSpacing == spacing && l.terms == c
                     && l.phase.NotGraduated? && l.curve == C.Fresh(c, enabled))
  {
    amount := MulDiv(c.Reserved(), c.graduationThreshold, c.phantomQuote + c.graduationThreshold);
  }

  /**
   A ready launch: the guard is asked about its pair, its tick spacing, all the quote it raised and the floored
   amount of tokens that opens the pool at the curve's price; `graduate` goes through on its yes, and only the
   owner's `forceSweptGraduation` on its no.
   */
  lemma GuardDecidesTheExit(g: Guard, s: State, t: Address, lost: nat) returns (amount: nat)
    requires Reachable(g, s) && ReadyLaunch(s, t).Success?
    ensures t in s.launches && s.launches[t].phase.NotGraduated?
    ensures var l := s.launches[t];
            var raised := l.curve.trackedQuote - l.curve.quoteFeeBalance - l.curve.creatorTaxBalance;
            && IsFloor(amount, l.curve.trackedTokens * raised, raised + l.terms.phantomQuote)
            && 0 <= raised
            && var viable := 0 < amount && g.seedable(t, l.pairToken, l.tickSpacing, raised, amount);
               && (Graduate(g, s, t, lost).Success? <==> viable && lost < raised)
               && (ForceSweptGraduation(g, s, t, true, lost).Success? <==> !viable && lost < raised)
               && ForceSweptGraduation(g, s, t, false, lost) == Failure(NotOwner)
  {
    hide C.Graduate, SweepCurve, Inv, LaunchInv, C.ReadyToGraduate, SweptState;
    ReachableKeepsInv(g, s);
    ReadyRecord(g, s, t);
    SweepCurveKeeps(g, s, t, s.launches[t], lost);
    RecordIsItsToken(g, s, t);
    var l := s.launches[t];
    amount := MulDiv(l.curve.trackedTokens, C.RealQuoteReserve(l.curve),
                     C.RealQuoteReserve(l.curve) + l.terms.phantomQuote);
    ReservedIsPositive(l.terms);
  }

  lemma RecordIsItsToken(g: Guard, s: State, t: Address)
    requires Inv(g, s) && t in s.launches
    ensures s.launches[t].token == t && t != s.launches[t].pairToken
  {
  }

  lemma ReservedIsPositive(c: C.Config)
    requires c.Valid()
    ensures 0 < c.Reserved()
  {
  }

  /**
   A swept launch: the pool is created exactly when the executor is set, the guard accepts the whole quote with its
   floored token side, and Uniswap takes the position; the rest of the tokens is locked, and the factory parts with
   those two reserves and nothing else.
   */
  lemma PoolTakesItsSeed(g: Guard, s: State, t: Address, mints: bool, a: Address) returns (amount: nat)
    requires Reachable(g, s) && t in s.launches && s.launches[t].phase.Swept?
    ensures var l, r := s.launches[t], CreateGraduatedPool(g, s, t, mints);
            && IsFloor(amount, l.sweptTokens * l.sweptQuote, l.sweptQuote + l.terms.phantomQuote)
            && (r.Success? <==>
                  s.executorSet && mints && 0 < amount
                  && g.seedable(t, l.pairToken, l.tickSpacing, l.sweptQuote, amount))
            && (r.Success? ==>
                  var l' := r.value.launches[t];
                  && l'.phase.PoolCreated? && l'.poolQuote == l.sweptQuote
                  && l'.poolTokens == amount && l'.lockedTokens == l.sweptTokens - amount
                  && Amount(s.balance, a) - Amount(r.value.balance, a)
                     == (if a == l.pairToken then l.sweptQuote else 0) + (if a == t then l.sweptTokens else 0))
  {
    hide Inv, LaunchInv, SeedPayments;
    ReachableKeepsInv(g, s);
    RecordIsItsToken(g, s, t);
    var l := s.launches[t];
    SweptIsPositive(g, s, t);
    amount := MulDiv(l.sweptTokens, l.sweptQuote, l.sweptQuote + l.terms.phantomQuote);
    if AssertSeedable(g, l, l.sweptQuote, l.sweptTokens).Success? {
      SeededStateKeeps(g, s, l, amount);
      SeedOutcome(g, s, t, l, amount, mints);
      EscrowCoversLaunch(g, s, t, t);
      EscrowCoversLaunch(g, s, t, l.pairToken);
      SeedPaymentsAreCovered(s.balance, l, amount);
    }
  }

  lemma SweptIsPositive(g: Guard, s: State, t: Address)
    requires Inv(g, s) && t in s.launches && s.launches[t].phase.Swept?
    ensures 0 < s.launches[t].sweptQuote && 0 < s.launches[t].sweptTokens
  {
  }
}
