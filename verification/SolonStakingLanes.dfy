/** Where SolonStaking's rewards go: how long each lane streams what it was given, and whom a stream reaches. */
module SolonStakingLanes {
  import opened Balances
  import opened FloorMath
  import opened Outcomes
  import opened MapSums
  import opened SolonStakingModel
  import opened SolonStakingRuns

  /** What a lane gives in the `k` seconds from `now` on. */
  function Gives(l: Lane, now: nat, k: nat): nat {
    if l.periodFinish <= now then 0 else Min(k, l.periodFinish - now) * l.rate
  }

  /** What it still gives from `now` on, whenever that is. */
  function Leftover(l: Lane, now: nat): nat {
    if l.periodFinish <= now then 0 else (l.periodFinish - now) * l.rate
  }

  /** Rewards idle once the stream of a time without stakers is counted. */
  function IdleBy(s: State): nat {
    s.idleRewards + (if s.totalStaked == 0 then PendingFlow(s) else 0)
  }

  /** Right after a checkpoint, `k` seconds bring what the two lanes give in them. */
  lemma FlowOfLanes(s: State, k: nat)
    requires s.lastUpdate == s.now
    ensures PendingFlow(s.(now := s.now + k)) == Gives(s.buyback, s.now, k) + Gives(s.genesis, s.now, k)
  {
  }

  // ---- Funding ----

  /**
   `total` streams through a fresh period of `d` seconds: at `total / d` per second rounded down, for `k` seconds and
   for any number past the end, and then stops; what the rounding leaves is idle.
   */
  ghost predicate StreamsFor(s: State, t: State, l: Lane, total: nat, d: nat, rate: nat) {
    && IsFloor(rate, total, d) && 0 < rate
    && l.rate == rate && l.periodFinish == s.now + d
    && (forall k: nat :: Gives(l, s.now, k) == (if k < d then k else d) * rate)
    && t.idleRewards + d * rate == IdleBy(s) + total
  }

  lemma NewPeriod(s: State, t: State, l: Lane, total: nat, d: nat, rate: nat)
    requires 0 < d && l.rate == rate && l.periodFinish == s.now + d && rate == MulDiv(total, 1, d) && 0 < rate
    requires t.idleRewards == IdleBy(s) + (total - rate * d)
    ensures StreamsFor(s, t, l, total, d, rate)
  {
  }

  /** The genesis pool streams over thirty days from the moment it is seeded, in its own lane. */
  lemma SeedStreams(s: State, fromOwner: bool, amount: nat)
    requires Inv(s)
    ensures var r := SeedGenesis(s, fromOwner, amount);
            && (r.Success? <==> fromOwner && !s.paused && !s.genesisSeeded && 1_000 * ONE <= amount)
            && (r.Success? ==>
                  var t := r.value;
                  && t.genesisSeeded && t.buyback == s.buyback
                  && StreamsFor(s, t, t.genesis, amount + Leftover(s.genesis, s.now), 2_592_000, t.genesis.rate)
                  && t.rewardReserve == s.rewardReserve + amount && t.balance == s.balance + amount
                  && t.genesis.injected == s.genesis.injected + amount)
  {
    hide Inv;
    SeedKeeps(s, fromOwner, amount);
    var r := SeedGenesis(s, fromOwner, amount);
    if r.Success? {
      SeededState(s, fromOwner, amount);
      var t, total := r.value, amount + Leftover(s.genesis, s.now);
      NewPeriod(s, t, t.genesis, total, 2_592_000, t.genesis.rate);
    }
  }

  lemma SeededState(s: State, fromOwner: bool, amount: nat)
    requires SeedGenesis(s, fromOwner, amount).Success?
    ensures var t, total := SeedGenesis(s, fromOwner, amount).value, amount + Leftover(s.genesis, s.now);
            && t.genesisSeeded && t.buyback == s.buyback
            && 0 < t.genesis.rate == MulDiv(total, 1, 2_592_000) && t.genesis.periodFinish == s.now + 2_592_000
            && t.idleRewards == IdleBy(s) + (total - t.genesis.rate * 2_592_000)
            && t.rewardReserve == s.rewardReserve + amount && t.balance == s.balance + amount
            && t.genesis.injected == s.genesis.injected + amount
  {
    hide MulDiv;
  }

  /** A buyback injection restarts the seven-day lane with what that lane still had to give. */
  lemma NotifyStreams(s: State, fromDistributor: bool, amount: nat)
    requires Inv(s)
    ensures var r := NotifyBuyback(s, fromDistributor, amount);
            && (r.Success? <==> !s.paused && fromDistributor && 1_000 * ONE <= amount)
            && (r.Success? ==>
                  var t := r.value;
                  && t.genesis == s.genesis
                  && StreamsFor(s, t, t.buyback, amount + Leftover(s.buyback, s.now), 604_800, t.buyback.rate)
                  && t.rewardReserve == s.rewardReserve + amount && t.balance == s.balance + amount
                  && t.buyback.injected == s.buyback.injected + amount)
  {
    hide Inv;
    NotifyKeeps(s, fromDistributor, amount);
    var r := NotifyBuyback(s, fromDistributor, amount);
    if r.Success? {
      NotifiedState(s, fromDistributor, amount);
      var t, total := r.value, amount + Leftover(s.buyback, s.now);
      NewPeriod(s, t, t.buyback, total, 604_800, t.buyback.rate);
    }
  }

  lemma NotifiedState(s: State, fromDistributor: bool, amount: nat)
    requires NotifyBuyback(s, fromDistributor, amount).Success?
    ensures var t, total := NotifyBuyback(s, fromDistributor, amount).value, amount + Leftover(s.buyback, s.now);
            && t.genesis == s.genesis
            && 0 < t.buyback.rate == MulDiv(total, 1, 604_800) && t.buyback.periodFinish == s.now + 604_800
            && t.idleRewards == IdleBy(s) + (total - t.buyback.rate * 604_800)
            && t.rewardReserve == s.rewardReserve + amount && t.balance == s.balance + amount
            && t.buyback.injected == s.buyback.injected + amount
  {
    hide MulDiv;
  }

  /** The owner can restream all that is idle, over seven days with the lane's leftover, once it fills a rate. */
  lemma ReallocateStreams(s: State, fromOwner: bool)
    requires Inv(s)
    ensures var r := ReallocateIdle(s, fromOwner);
            var total := IdleBy(s) + Leftover(s.buyback, s.now);
            && (r.Success? <==> fromOwner && 0 < IdleBy(s) && 604_800 <= total)
            && (r.Success? ==>
                  var t := r.value;
                  && t.genesis == s.genesis && t.buyback.injected == s.buyback.injected
                  && IsFloor(t.buyback.rate, total, 604_800) && t.buyback.periodFinish == s.now + 604_800
                  && (forall k: nat ::
                        Gives(t.buyback, s.now, k) == (if k < 604_800 then k else 604_800) * t.buyback.rate)
                  && t.idleRewards + 604_800 * t.buyback.rate == total
                  && t.rewardReserve == s.rewardReserve && t.balance == s.balance)
  {
    hide Inv, StartPeriod, MulDiv;
    CheckpointKeeps(s);
    var c := Checkpoint(s);
    assert c.(idleRewards := 0).(idleRewards := c.idleRewards) == c;
    StartPeriodKeeps(c.(idleRewards := 0), Buyback, c.idleRewards);
  }

  // ---- Whom a stream reaches ----

  /**
   A fair share: from any settled state, whatever both lanes give in `k` seconds reaches every staker by the size of
   its stake, to less than one unit above, and one unit and the accumulator's rounding below.
   */
  lemma EarnsItsShare(s: State, who: Address, k: nat)
    requires Inv(s) && s.lastUpdate == s.now && 0 < s.totalStaked
    ensures var flow := Gives(s.buyback, s.now, k) + Gives(s.genesis, s.now, k);
            var staked, gain := AccountOf(s, who).staked, Earned(s.(now := s.now + k), who) - Earned(s, who);
            && s.totalStaked * ONE * gain < staked * (flow * ONE) + s.totalStaked * ONE
            && staked * (flow * ONE) < s.totalStaked * ONE * gain + s.totalStaked * ONE + staked * s.totalStaked + 1
  {
    var a := AccountOf(s, who);
    var flow := Gives(s.buyback, s.now, k) + Gives(s.genesis, s.now, k);
    FlowOfLanes(s, k);
    SettledView(s);
    var d := MulDiv(flow, ONE, s.totalStaked);
    var g: nat := s.rewardPerTokenStored - a.paid;
    GainOfShare(a.staked, g, d);
    ShareOfAll(a.staked, s.totalStaked, flow * ONE, d,
               MulDiv(a.staked, g + d, ONE) - MulDiv(a.staked, g, ONE));
  }

  lemma GainOfShare(staked: nat, g: nat, d: nat)
    ensures var gain := MulDiv(staked, g + d, ONE) - MulDiv(staked, g, ONE);
            gain * ONE - ONE < staked * d < gain * ONE + ONE
  {
    Distribute(g, d, staked);
    Distribute(MulDiv(staked, g + d, ONE), MulDiv(staked, g, ONE), ONE);
  }

  lemma ShareOfAll(staked: nat, total: nat, f: nat, d: nat, gain: int)
    requires 0 < total && IsFloor(d, f, total) && gain * ONE - ONE < staked * d < gain * ONE + ONE
    ensures total * ONE * gain < staked * f + total * ONE
    ensures staked * f < total * ONE * gain + total * ONE + staked * total + 1
  {
    MulLe(d * total, f, staked);
    MulLe(f, d * total + total, staked);
    MulLe(gain * ONE - ONE + 1, staked * d, total);
    MulLe(staked * d + 1, gain * ONE + ONE, total);
    Distribute(d * total, total, staked);
    assert d * total * staked == staked * d * total;
    assert (gain * ONE - ONE + 1) * total == total * ONE * gain - total * ONE + total;
    assert (gain * ONE + ONE) * total == total * ONE * gain + total * ONE;
    assert (staked * d + 1) * total == staked * d * total + total;
  }
}
