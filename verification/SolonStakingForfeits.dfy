/** What `unstake` does to rewards when its isolated reward leg fails, for the leaver and for everyone else. */
module SolonStakingForfeits {
  import opened Balances
  import opened FloorMath
  import opened Outcomes
  import opened MapSums
  import opened SolonStakingModel
  import opened SolonStakingRuns
  import opened SolonStakingFairness

  lemma SmallerDivisor(a: nat, b: nat, d: nat, d': nat)
    requires 0 < d' <= d
    ensures MulDiv(a, b, d) <= MulDiv(a, b, d')
  {
    MulLe(d', d, MulDiv(a, b, d));
    CancelLt(MulDiv(a, b, d), MulDiv(a, b, d') + 1, d');
  }

  lemma EarnedMonotone(a: Account, r: nat, r': nat)
    requires r <= r'
    ensures EarnedAt(a, r) <= EarnedAt(a, r')
  {
    var g, g' := if a.paid <= r then r - a.paid else 0, if a.paid <= r' then r' - a.paid else 0;
    MulLe(g, g', a.staked);
    CancelLt(MulDiv(a.staked, g, ONE), MulDiv(a.staked, g', ONE) + 1, ONE);
  }

  /** An unstake whose checkpoint fails never costs anyone else. */
  lemma SkippedCheckpointNeverHurtsOthers(s: State, who: Address, amount: nat, other: Address)
    requires Inv(s) && other != who
    ensures Earned(s, other) <= Earned(Step(s, OpUnstake(who, amount, Skipped)), other)
  {
    var t := Step(s, OpUnstake(who, amount, Skipped));
    OtherAccountsUntouched(s, OpUnstake(who, amount, Skipped), other);
    UnstakeKeeps(s, who, amount, Skipped);
    if s.totalStaked != 0 {
      if t.totalStaked != 0 {
        SmallerDivisor(PendingFlow(s), ONE, s.totalStaked, t.totalStaked);
        EarnedMonotone(AccountOf(s, other), RewardPerToken(s), RewardPerToken(t));
      } else {
        if other in t.accounts {
          SumCoversEntry(t.accounts, other, Staked());
        }
        NothingStaked(AccountOf(s, other), RewardPerToken(s));
        NothingStaked(AccountOf(s, other), RewardPerToken(t));
      }
    }
  }

  lemma NothingStaked(a: Account, r: nat)
    requires a.staked == 0
    ensures EarnedAt(a, r) == a.rewards
  {
    MulDivUnique(0, if a.paid <= r then r - a.paid else 0, ONE, 0);
  }

  /** When only the payment fails, the reward stays on the books in full. */
  lemma UnpaidRewardStaysOnTheBooks(s: State, who: Address, amount: nat)
    requires Inv(s) && 0 < amount <= AccountOf(s, who).staked
    ensures Earned(Step(s, OpUnstake(who, amount, Unpaid)), who) == Earned(s, who)
  {
    var t := Step(s, OpUnstake(who, amount, Unpaid));
    CheckpointForKeeps(s, who);
    UnstakeKeeps(s, who, amount, Unpaid);
    SettledView(t);
    MulDivUnique(AccountOf(t, who).staked, 0, ONE, 0);
  }

  /**
   When the checkpoint itself fails the reward does not stay on the books: a full exit keeps only what had been
   settled before, so the rest is kept exactly when there was nothing unsettled.
   */
  lemma SkippedFullExitForfeitsUnsettled(s: State, who: Address)
    requires Inv(s) && 0 < AccountOf(s, who).staked
    ensures var t := Step(s, OpUnstake(who, AccountOf(s, who).staked, Skipped));
            && Earned(t, who) == AccountOf(s, who).rewards
            && (Earned(t, who) == Earned(s, who)
                <==> AccountOf(s, who).staked * (RewardPerToken(s) - AccountOf(s, who).paid) < ONE)
  {
    var a := AccountOf(s, who);
    var t := Step(s, OpUnstake(who, a.staked, Skipped));
    UnstakeKeeps(s, who, a.staked, Skipped);
    assert AccountOf(t, who) == a.(staked := 0);
    NothingStaked(AccountOf(t, who), RewardPerToken(t));
    if a.staked * (RewardPerToken(s) - a.paid) < ONE {
      MulDivUnique(a.staked, RewardPerToken(s) - a.paid, ONE, 0);
    }
  }

  /** The stake a skipped exit leaves, and the accumulator it will be settled at. */
  lemma SkippedExitState(s: State, who: Address, amount: nat)
    requires Inv(s) && 0 < amount <= AccountOf(s, who).staked
    ensures var t := Step(s, OpUnstake(who, amount, Skipped));
            && AccountOf(t, who) == AccountOf(s, who).(staked := AccountOf(s, who).staked - amount)
            && AccountOf(s, who).paid <= s.rewardPerTokenStored == t.rewardPerTokenStored
            && AccountOf(s, who).staked <= s.totalStaked && t.totalStaked == s.totalStaked - amount
            && PendingFlow(t) == PendingFlow(s)
            && (PendingFlow(s) == 0 ==>
                  RewardPerToken(t) == s.rewardPerTokenStored && RewardPerToken(s) == s.rewardPerTokenStored)
  {
    UnstakeKeeps(s, who, amount, Skipped);
    SumCoversEntry(s.accounts, who, Staked());
    var t := Step(s, OpUnstake(who, amount, Skipped));
    if PendingFlow(s) == 0 {
      MulDivUnique(0, ONE, s.totalStaked, 0);
      if t.totalStaked != 0 {
        MulDivUnique(0, ONE, t.totalStaked, 0);
      }
    }
  }

  /**
   The same for a partial exit. While nothing has streamed since the last update, the reward is kept exactly when
   the withdrawn stake's share of the unsettled claim fits into that claim's rounding.
   */
  lemma SkippedExitForfeitsItsShare(s: State, who: Address, amount: nat)
    requires Inv(s) && 0 < amount <= AccountOf(s, who).staked && PendingFlow(s) == 0
    ensures var t := Step(s, OpUnstake(who, amount, Skipped));
            var a := AccountOf(s, who);
            var g := s.rewardPerTokenStored - a.paid;
            && Earned(t, who) <= Earned(s, who)
            && (Earned(t, who) == Earned(s, who) <==> amount * g <= a.staked * g % ONE)
  {
    hide Step;
    SkippedExitState(s, who, amount);
    var a := AccountOf(s, who);
    FloorKeptExactlyWhen(a.staked, amount, s.rewardPerTokenStored - a.paid);
  }

  /**
   And whatever has streamed since: the claim that is left is at most the old one less the withdrawn stake's stored
   share, up to one unit per staked token.
   */
  lemma SkippedExitLeavesAtMost(s: State, who: Address, amount: nat)
    requires Inv(s) && 0 < amount <= AccountOf(s, who).staked
    ensures var t := Step(s, OpUnstake(who, amount, Skipped));
            var a := AccountOf(s, who);
            ONE * (Earned(t, who) - a.rewards)
            <= a.staked * (RewardPerToken(s) - a.paid) + a.staked - amount * (s.rewardPerTokenStored - a.paid)
  {
    hide Step, PendingFlow, Inv;
    SkippedExitState(s, who, amount);
    var a := AccountOf(s, who);
    var t := Step(s, OpUnstake(who, amount, Skipped));
    var d, d' := RewardPerToken(s) - s.rewardPerTokenStored, RewardPerToken(t) - s.rewardPerTokenStored;
    ShareOfFlow(PendingFlow(s), a.staked, s.totalStaked, amount, d, d');
    LeftOver(a.staked, amount, s.rewardPerTokenStored - a.paid, d, d');
  }

  /** Leaving with part of a stake does not raise the part of a flow that the rest of it gets, rounding aside. */
  lemma ShareOfFlow(flow: nat, staked: nat, total: nat, amount: nat, d: nat, d': nat)
    requires 0 < amount <= staked <= total && d == MulDiv(flow, ONE, total)
    requires d' == if total == amount then 0 else MulDiv(flow, ONE, total - amount)
    ensures (staked - amount) * d' <= staked * d + staked
  {
    if amount < staked {
      var rest, total' := staked - amount, total - amount;
      assert rest * total <= staked * total' by {
        MulLe(staked, total, amount);
        Distribute(staked, amount, total);
        Distribute(total, amount, staked);
      }
      Distribute(d, 1, total);
      Distribute(d, 1, staked);
      ShareOfQuotient(flow * ONE, rest, staked, total, total', d + 1, d');
    }
  }

  lemma ShareOfQuotient(f: nat, rest: nat, staked: nat, total: nat, total': nat, e: nat, d': nat)
    requires 0 < total' && rest * total <= staked * total'
    requires d' * total' <= f <= e * total
    ensures rest * d' <= staked * e
  {
    MulLe(d' * total', e * total, rest);
    MulLe(rest * total, staked * total', e);
    assert d' * total' * rest == rest * d' * total';
    assert e * total * rest == rest * total * e;
    assert staked * total' * e == staked * e * total';
    CancelLe(rest * d', staked * e, total');
  }

  lemma LeftOver(staked: nat, amount: nat, g: nat, d: nat, d': nat)
    requires amount <= staked && (staked - amount) * d' <= staked * d + staked
    ensures (staked - amount) * (g + d') <= staked * (g + d) + staked - amount * g
  {
    assert (staked - amount) * (g + d') == staked * g - amount * g + (staked - amount) * d';
    assert staked * (g + d) == staked * g + staked * d;
  }

  lemma FloorKeptExactlyWhen(staked: nat, amount: nat, g: nat)
    requires amount <= staked
    ensures MulDiv(staked - amount, g, ONE) <= MulDiv(staked, g, ONE)
    ensures MulDiv(staked - amount, g, ONE) == MulDiv(staked, g, ONE) <==> amount * g <= staked * g % ONE
  {
    MulDivMonotone(staked - amount, staked, g, ONE);
    Distribute(staked, amount, g);
    if amount * g <= staked * g % ONE {
      MulDivUnique(staked - amount, g, ONE, MulDiv(staked, g, ONE));
    }
  }

  /**
   Such an exit from a state a deployment reaches: stake, a reward arrives and streams for a while, and the exit's
   checkpoint fails. Everything that streamed had been earned, and none of it is left to claim.
   */
  lemma SkippedExitLosesARunningReward(cap: nat, start: nat, who: Address, staked: nat, reward: nat, wait: nat)
    requires 0 < staked <= cap && MIN_NOTIFY <= reward && 0 < wait <= BUYBACK_DURATION
    ensures var s := Run(Deploy(cap, start), [OpStake(who, staked), OpNotifyBuyback(true, reward), OpWait(wait)]);
            var t := Step(s, OpUnstake(who, staked, Skipped));
            var flow := wait * MulDiv(reward, 1, BUYBACK_DURATION);
            && Inv(s) && 0 < flow
            && Earned(s, who) == MulDiv(staked, MulDiv(flow, ONE, staked), ONE)
            && Earned(t, who) == 0
            && (staked <= ONE * (flow - 1) ==> 0 < Earned(s, who))
  {
    hide Run, Step, PendingFlow;
    StakedAndStreaming(cap, start, who, staked, reward, wait);
    var s := Run(Deploy(cap, start), [OpStake(who, staked), OpNotifyBuyback(true, reward), OpWait(wait)]);
    var flow := wait * MulDiv(reward, 1, BUYBACK_DURATION);
    SkippedFullExitForfeitsUnsettled(s, who);
    if staked <= ONE * (flow - 1) {
      EnoughStreamed(staked, flow);
    }
  }

  lemma StakedAndStreaming(cap: nat, start: nat, who: Address, staked: nat, reward: nat, wait: nat)
    requires 0 < staked <= cap && MIN_NOTIFY <= reward && 0 < wait <= BUYBACK_DURATION
    ensures var s := Run(Deploy(cap, start), [OpStake(who, staked), OpNotifyBuyback(true, reward), OpWait(wait)]);
            && Inv(s) && 0 < PendingFlow(s) == wait * MulDiv(reward, 1, BUYBACK_DURATION)
            && AccountOf(s, who) == Account(staked, 0, 0)
            && s.totalStaked == staked && s.rewardPerTokenStored == 0
  {
    hide Inv, Stake, NotifyBuyback;
    var d := Deploy(cap, start);
    var ops := [OpStake(who, staked), OpNotifyBuyback(true, reward), OpWait(wait)];
    RunThree(d, ops);
    DeployedInv(cap, start);
    StepKeeps(d, ops[0]);
    StepKeeps(Step(d, ops[0]), ops[1]);
    StepKeeps(Step(Step(d, ops[0]), ops[1]), ops[2]);
    FirstStake(cap, start, who, staked);
    FirstReward(Step(d, ops[0]), reward);
    RateStreams(reward, wait);
  }

  lemma DeployedInv(cap: nat, start: nat)
    ensures Inv(Deploy(cap, start))
  {
  }

  lemma RateStreams(reward: nat, wait: nat)
    requires MIN_NOTIFY <= reward && 0 < wait
    ensures 0 < wait * MulDiv(reward, 1, BUYBACK_DURATION)
  {
    var rate := MulDiv(reward, 1, BUYBACK_DURATION);
    CancelLt(0, rate, BUYBACK_DURATION);
    MulLe(1, wait, rate);
  }

  lemma RunThree(d: State, ops: seq<Op>)
    requires |ops| == 3
    ensures Run(d, ops) == Step(Step(Step(d, ops[0]), ops[1]), ops[2])
  {
    hide Step;
    var s1, s2 := Step(d, ops[0]), Step(Step(d, ops[0]), ops[1]);
    assert ops[1..][0] == ops[1] && ops[1..][1..] == ops[2..];
    assert ops[2..][0] == ops[2] && ops[2..][1..] == [];
    assert Run(d, ops) == Run(s1, ops[1..]);
    assert Run(s1, ops[1..]) == Run(s2, ops[2..]);
    assert Run(s2, ops[2..]) == Run(Step(s2, ops[2]), []);
  }

  lemma FirstStake(cap: nat, start: nat, who: Address, staked: nat)
    requires 0 < staked <= cap
    ensures var d := Deploy(cap, start);
            Step(d, OpStake(who, staked))
            == d.(accounts := map[who := Account(staked, 0, 0)], totalStaked := staked, balance := staked)
  {
    var d := Deploy(cap, start);
    MulDivUnique(0, 0, ONE, 0);
    assert Checkpoint(d) == d;
    assert CheckpointFor(d, who) == Success(Put(d, who, NO_ACCOUNT));
    var c := Put(d, who, NO_ACCOUNT);
    assert AccountOf(c, who) == NO_ACCOUNT;
    assert c.accounts[who := Account(staked, 0, 0)] == map[who := Account(staked, 0, 0)];
    assert Stake(d, who, staked).Success?;
  }

  lemma FirstReward(s: State, reward: nat)
    requires Inv(s) && s.lastUpdate == s.now && !s.paused && s.buyback == s.genesis == Lane(0, 0, 0)
    requires MIN_NOTIFY <= reward
    ensures var t := Step(s, OpNotifyBuyback(true, reward));
            && t.buyback == Lane(MulDiv(reward, 1, BUYBACK_DURATION), s.now + BUYBACK_DURATION, reward)
            && t.genesis == s.genesis && t.accounts == s.accounts && t.totalStaked == s.totalStaked
            && t.rewardPerTokenStored == s.rewardPerTokenStored && t.lastUpdate == t.now == s.now
  {
    SettledView(s);
    assert Checkpoint(s) == s;
    NotifyKeeps(s, true, reward);
    InjectKeeps(s, Buyback, reward);
  }

  lemma EnoughStreamed(staked: nat, flow: nat)
    requires 0 < staked <= ONE * (flow - 1)
    ensures 0 < MulDiv(staked, MulDiv(flow, ONE, staked), ONE)
  {
    var d := MulDiv(flow, ONE, staked);
    assert ONE <= staked * d;
    CancelLt(0, MulDiv(staked, d, ONE), ONE);
  }
}
