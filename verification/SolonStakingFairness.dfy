/** How one user's actions and extra checkpoints bear on what users have earned. */
module SolonStakingFairness {
  import opened Balances
  import opened FloorMath
  import opened Outcomes
  import opened MapSums
  import opened SolonStakingModel
  import opened SolonStakingRuns

  /** Who an operation acts for, if it acts for a user. */
  ghost predicate ActsFor(op: Op, who: Address) {
    (op.OpStake? || op.OpUnstake? || op.OpClaim? || op.OpCompound?) && op.who == who
  }

  lemma CheckpointTouchesOnly(s: State, who: Address, other: Address)
    requires who != other
    ensures var r := CheckpointFor(s, who);
            r.Success? ==> AccountOf(r.value, other) == AccountOf(s, other)
  {
  }

  lemma PayTouchesOnly(s: State, who: Address, other: Address)
    requires who != other
    ensures var r := Pay(s, who);
            r.Success? ==> AccountOf(r.value.0, other) == AccountOf(s, other)
  {
  }

  lemma OtherAccountsUntouched(s: State, op: Op, other: Address)
    requires !ActsFor(op, other)
    ensures AccountOf(Step(s, op), other) == AccountOf(s, other)
  {
    hide NewRate, Folded, UnflowedAt, PendingFlow, RewardPerToken, EarnedAt;
    match op
    case OpStake(who, amount) => CheckpointTouchesOnly(s, who, other);
    case OpUnstake(who, amount, leg) => RewardLegTouchesOnly(s, who, leg, other);
    case OpClaim(who) => ClaimTouchesOnly(s, who, other);
    case OpCompound(who) => CheckpointTouchesOnly(s, who, other);
    case _ =>
  }

  lemma ClaimTouchesOnly(s: State, who: Address, other: Address)
    requires who != other
    ensures var r := Claim(s, who);
            r.Success? ==> AccountOf(r.value.0, other) == AccountOf(s, other)
  {
    CheckpointTouchesOnly(s, who, other);
    var c := CheckpointFor(s, who);
    if c.Success? {
      PayTouchesOnly(c.value, who, other);
    }
  }

  lemma RewardLegTouchesOnly(s: State, who: Address, leg: Leg, other: Address)
    requires who != other
    ensures AccountOf(RewardLeg(s, who, leg).0, other) == AccountOf(s, other)
  {
    CheckpointTouchesOnly(s, who, other);
    var c := CheckpointFor(s, who);
    if c.Success? {
      PayTouchesOnly(c.value, who, other);
    }
  }

  /**
   Non-interference: at a fixed time no stake, claim, compound, injection, reallocation, or unstake whose
   checkpoint went through changes what anyone else has earned.
   */
  lemma OthersUnaffected(s: State, op: Op, other: Address)
    requires Inv(s) && !ActsFor(op, other)
    requires !op.OpWait? && !(op.OpUnstake? && op.leg == Skipped)
    ensures Earned(Step(s, op), other) == Earned(s, other)
  {
    OtherAccountsUntouched(s, op, other);
    if Attempt(s, op).Success? && !op.OpSetStakeCap? && !op.OpSetPaused? && !op.OpDonate? {
      ViewAfter(s, op);
    }
  }

  lemma ViewAfter(s: State, op: Op)
    requires Inv(s) && Attempt(s, op).Success?
    requires op.OpStake? || op.OpClaim? || op.OpCompound? || op.OpNotifyBuyback? || op.OpSeedGenesis?
             || op.OpReallocateIdle? || (op.OpUnstake? && op.leg != Skipped)
    ensures RewardPerToken(Step(s, op)) == RewardPerToken(s)
  {
    var t := Step(s, op);
    match op {
      case OpStake(who, amount) => StakeKeeps(s, who, amount); CheckpointForKeeps(s, who);
      case OpUnstake(who, amount, leg) => RewardLegKeeps(s, who, leg);
      case OpClaim(who) => ClaimKeeps(s, who); CheckpointForKeeps(s, who); PayKeeps(CheckpointFor(s, who).value, who);
      case OpCompound(who) => CompoundKeeps(s, who); CheckpointForKeeps(s, who);
      case OpNotifyBuyback(fromDistributor, amount) => NotifyKeeps(s, fromDistributor, amount);
      case OpSeedGenesis(fromOwner, amount) => SeedKeeps(s, fromOwner, amount);
      case OpReallocateIdle(fromOwner) => ReallocateKeeps(s, fromOwner);
      case _ =>
    }
    assert t.lastUpdate == t.now == s.now && t.rewardPerTokenStored == RewardPerToken(s);
    SettledView(t);
  }

  // ---- Round trips ----

  /** Staking and unstaking the same amount in one block is exactly a claim. */
  lemma StakeThenUnstakeIsClaim(s: State, who: Address, amount: nat)
    requires Inv(s) && Stake(s, who, amount).Success?
    ensures var r := Unstake(Stake(s, who, amount).value, who, amount, Settled);
            r.Success? && r == Claim(s, who) && r.value.1 == Earned(s, who)
  {
    StakeIsAdded(s, who, amount);
    ClaimIsPay(s, who);
    UnstakeAdded(CheckpointFor(s, who).value, who, amount);
  }

  lemma StakeIsAdded(s: State, who: Address, amount: nat)
    requires Stake(s, who, amount).Success?
    ensures 0 < amount && CheckpointFor(s, who).Success?
    ensures Stake(s, who, amount).value == Added(CheckpointFor(s, who).value, who, amount)
  {
  }

  lemma ClaimIsPay(s: State, who: Address)
    requires Inv(s)
    ensures CheckpointFor(s, who).Success?
    ensures Claim(s, who) == Pay(CheckpointFor(s, who).value, who)
    ensures Claim(s, who).Success? && Claim(s, who).value.1 == Earned(s, who)
  {
    ClaimKeeps(s, who);
  }

  lemma UnstakeAdded(c: State, who: Address, amount: nat)
    requires c.lastUpdate == c.now && who in c.accounts && AccountOf(c, who).paid == c.rewardPerTokenStored
    requires Pay(c, who).Success? && 0 < amount
    ensures Unstake(Added(c, who, amount), who, amount, Settled) == Pay(c, who)
  {
    var t := Added(c, who, amount);
    SettledTwice(t, who);
    PayBesideStake(c, who, amount);
    assert RewardLeg(t, who, Settled) == Pay(t, who).value;
  }

  /** Checkpointing again in the same block changes nothing for a settled account. */
  lemma SettledTwice(t: State, who: Address)
    requires t.lastUpdate == t.now && who in t.accounts
    requires AccountOf(t, who).paid == t.rewardPerTokenStored
    ensures CheckpointFor(t, who) == Success(t)
  {
    SettledView(t);
    var a := AccountOf(t, who);
    MulDivUnique(a.staked, 0, ONE, 0);
    assert Checkpoint(t) == t;
    assert t.accounts[who := a] == t.accounts;
  }

  /** Paying rewards commutes with holding `amount` more stake meanwhile. */
  lemma PayBesideStake(c: State, who: Address, amount: nat)
    requires who in c.accounts && Pay(c, who).Success?
    ensures Pay(Added(c, who, amount), who).Success?
    ensures var (u, paid) := Pay(Added(c, who, amount), who).value;
            && amount <= u.balance && u.totalStaked == c.totalStaked + amount
            && Pay(c, who).value
               == (Put(u, who, AccountOf(u, who).(staked := AccountOf(c, who).staked)).(
                     totalStaked := c.totalStaked, balance := u.balance - amount), paid)
  {
    var t, a := Added(c, who, amount), AccountOf(c, who);
    var pay := Min(a.rewards, c.rewardReserve);
    assert c.accounts[who := a] == c.accounts;
    assert t.accounts[who := a] == c.accounts;
    var b := a.(rewards := a.rewards - pay);
    assert t.accounts[who := b.(staked := a.staked + amount)][who := b] == c.accounts[who := b];
  }

  ghost function Added(c: State, who: Address, amount: nat): State {
    Put(c, who, AccountOf(c, who).(staked := AccountOf(c, who).staked + amount)).(
      totalStaked := c.totalStaked + amount, balance := c.balance + amount)
  }

  // ---- Extra checkpoints ----

  lemma LaneFlowAdds(l: Lane, last: nat, m: nat, t: nat)
    requires last <= m <= t
    ensures LaneFlow(l, last, t) == LaneFlow(l, last, m) + LaneFlow(l, m, t)
  {
    LaneSplits(l, last, m);
    LaneSplits(l, m, t);
    LaneSplits(l, last, t);
  }

  /** Checkpoints at the given times, then the clock moved to `t`. */
  function CheckpointsThrough(s: State, times: seq<nat>, t: nat): State
    decreases |times|
  {
    if times == [] then s.(now := t)
    else CheckpointsThrough(Checkpoint(s.(now := times[0])), times[1..], t)
  }

  /** What streams in each of those intervals, in all. */
  function FlowThrough(s: State, times: seq<nat>, t: nat): nat
    decreases |times|
  {
    if times == [] then PendingFlow(s.(now := t))
    else PendingFlow(s.(now := times[0])) + FlowThrough(Checkpoint(s.(now := times[0])), times[1..], t)
  }

  ghost predicate Ordered(start: nat, times: seq<nat>, end: nat) {
    && start <= end
    && (forall i :: 0 <= i < |times| ==> start <= times[i] <= end)
    && (forall i, j :: 0 <= i < j < |times| ==> times[i] <= times[j])
  }

  /**
   Splitting an interval at any k times, with nothing else happening: the flows of the k + 1 pieces add up to the
   flow of the whole, and the accumulator ends at most k units lower; with nothing staked the idle bucket ends the
   same.
   */
  lemma {:induction false} ExtraCheckpointsCostAtMostOneEach(s: State, times: seq<nat>, t: nat)
    requires Ordered(s.lastUpdate, times, t)
    ensures var whole, split := s.(now := t), CheckpointsThrough(s, times, t);
            && FlowThrough(s, times, t) == PendingFlow(whole)
            && RewardPerToken(split) <= RewardPerToken(whole) <= RewardPerToken(split) + |times|
            && split.totalStaked == s.totalStaked && split.lastUpdate <= t
            && (s.totalStaked == 0 ==>
                  Checkpoint(split).idleRewards == Checkpoint(whole).idleRewards)
    decreases |times|
  {
    if times != [] {
      var m := times[0];
      var c := Checkpoint(s.(now := m));
      assert Ordered(c.lastUpdate, times[1..], t);
      ExtraCheckpointsCostAtMostOneEach(c, times[1..], t);
      OneExtraCheckpoint(s, m, t);
    }
  }

  lemma OneExtraCheckpoint(s: State, m: nat, t: nat)
    requires s.lastUpdate <= m <= t
    ensures var whole, split := s.(now := t), Checkpoint(s.(now := m)).(now := t);
            && PendingFlow(s.(now := m)) + PendingFlow(split) == PendingFlow(whole)
            && RewardPerToken(split) <= RewardPerToken(whole) <= RewardPerToken(split) + 1
            && (s.totalStaked == 0 ==> Checkpoint(split).idleRewards == Checkpoint(whole).idleRewards)
  {
    LaneFlowAdds(s.buyback, s.lastUpdate, m, t);
    LaneFlowAdds(s.genesis, s.lastUpdate, m, t);
    if s.totalStaked != 0 {
      var split := Checkpoint(s.(now := m)).(now := t);
      FloorOfSum(PendingFlow(s.(now := m)), PendingFlow(split), ONE, s.totalStaked);
    }
  }
}
