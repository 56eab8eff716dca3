/** Reserve coverage, solvency and non-interference of SolonStaking, over every run. */
module SolonStakingRuns {
  import opened Balances
  import opened FloorMath
  import opened Outcomes
  import opened MapSums
  import opened SolonStakingModel

  // ---- The scaled ledger ----

  function Staked(): Account -> int {
    (a: Account) => a.staked
  }

  /** ONE times what an account is owed at an accumulator value, before flooring. */
  function Accrued(rewardPerToken: nat): Account -> int {
    (a: Account) => a.staked * (rewardPerToken - a.paid) + ONE * a.rewards
  }

  function EarnedBy(rewardPerToken: nat): Account -> int {
    (a: Account) => EarnedAt(a, rewardPerToken)
  }

  ghost function SumEarned(s: State): int {
    Sum(s.accounts, EarnedBy(RewardPerToken(s)))
  }

  ghost predicate Behind(s: State) {
    forall who :: who in s.accounts ==> s.accounts[who].paid <= s.rewardPerTokenStored
  }

  /**
   Reachable states. The last line is the scaled form of coverage: what the reserve holds beyond idle rewards and
   beyond what is still to stream covers every account's unfloored claim.
   */
  ghost predicate Inv(s: State) {
    && Behind(s)
    && s.lastUpdate <= s.now
    && s.totalStaked == Sum(s.accounts, Staked())
    && s.balance == s.totalStaked + s.rewardReserve + s.donated
    && s.rewardReserve + s.totalPaid + s.compounded == s.buyback.injected + s.genesis.injected
    && Covered(s)
  }

  /** What the reserve holds beyond the idle bucket and the remaining streams. */
  ghost function Backing(s: State): int {
    s.rewardReserve - s.idleRewards - UnflowedAt(s, s.lastUpdate)
  }

  ghost predicate Covered(s: State) {
    Sum(s.accounts, Accrued(s.rewardPerTokenStored)) <= ONE * Backing(s)
  }

  // ---- Streams ----

  /** A lane's remaining stream is what flows until t and what remains after it. */
  lemma LaneSplits(l: Lane, last: nat, t: nat)
    requires last <= t
    ensures LaneUnflowed(l, last) == LaneFlow(l, last, t) + LaneUnflowed(l, t)
  {
    if t < l.periodFinish {
      Distribute(t - last, l.periodFinish - t, l.rate);
    }
  }

  lemma FlowSplits(s: State)
    requires s.lastUpdate <= s.now
    ensures UnflowedAt(s, s.lastUpdate) == PendingFlow(s) + UnflowedAt(s, s.now)
  {
    LaneSplits(s.buyback, s.lastUpdate, s.now);
    LaneSplits(s.genesis, s.lastUpdate, s.now);
  }

  // ---- Checkpoints ----

  /** Raising the accumulator by d raises the total claim by d per staked token. */
  lemma AccruedGrows(s: State, d: nat)
    ensures Sum(s.accounts, Accrued(s.rewardPerTokenStored + d))
         == Sum(s.accounts, Accrued(s.rewardPerTokenStored)) + d * Sum(s.accounts, Staked())
  {
    var r := s.rewardPerTokenStored;
    forall who | who in s.accounts
      ensures Accrued(r + d)(s.accounts[who]) == Accrued(r)(s.accounts[who]) + d * Staked()(s.accounts[who])
    {
      var a := s.accounts[who];
      assert a.staked * (r + d - a.paid) == a.staked * (r - a.paid) + d * a.staked;
    }
    SumAddScaled(s.accounts, Accrued(r), Staked(), Accrued(r + d), d);
  }

  lemma CheckpointKeeps(s: State)
    requires Inv(s)
    ensures var c := Checkpoint(s);
            && Inv(c) && c.lastUpdate == s.now
            && c.rewardPerTokenStored == RewardPerToken(s) == RewardPerToken(c)
  {
    var c := Checkpoint(s);
    FlowSplits(s);
    if s.totalStaked != 0 {
      var d := MulDiv(PendingFlow(s), ONE, s.totalStaked);
      AccruedGrows(s, d);
    }
    SettledView(c);
  }

  /** Writing one account keeps the invariant if its claim falls by at least what leaves the reserve. */
  lemma WriteKeeps(s: State, t: State, who: Address, a: Account)
    requires Inv(s) && a.paid <= s.rewardPerTokenStored
    requires t.accounts == s.accounts[who := a] && t.rewardPerTokenStored == s.rewardPerTokenStored
    requires t.lastUpdate == s.lastUpdate <= t.now
    requires t.totalStaked == s.totalStaked - AccountOf(s, who).staked + a.staked
    requires t.balance == t.totalStaked + t.rewardReserve + t.donated
    requires t.rewardReserve + t.totalPaid + t.compounded == t.buyback.injected + t.genesis.injected
    requires Accrued(s.rewardPerTokenStored)(a) - ClaimOf(s, who) <= ONE * (Backing(t) - Backing(s))
    ensures Inv(t)
  {
    SumUpdate(s.accounts, who, a, Staked());
    SumUpdate(s.accounts, who, a, Accrued(s.rewardPerTokenStored));
  }

  ghost function ClaimOf(s: State, who: Address): int {
    if who in s.accounts then Accrued(s.rewardPerTokenStored)(s.accounts[who]) else 0
  }

  lemma SameStreams(s: State, t: State)
    requires t.buyback == s.buyback && t.genesis == s.genesis && t.lastUpdate == s.lastUpdate
    requires t.idleRewards == s.idleRewards
    ensures Backing(t) - Backing(s) == t.rewardReserve - s.rewardReserve
  {
  }

  /** Settling one account floors its claim and leaves everyone's stake and the reserve alone. */
  lemma CheckpointForKeeps(s: State, who: Address)
    requires Inv(s)
    ensures var r := CheckpointFor(s, who);
            && r.Success? && Inv(r.value)
            && r.value.lastUpdate == s.now == r.value.now
            && r.value.rewardPerTokenStored == RewardPerToken(s) == RewardPerToken(r.value)
            && AccountOf(r.value, who)
               == Account(AccountOf(s, who).staked, r.value.rewardPerTokenStored, Earned(s, who))
            && r.value.totalStaked == s.totalStaked && r.value.rewardReserve == s.rewardReserve
            && r.value.balance == s.balance
  {
    hide PendingFlow, UnflowedAt, Sum;
    CheckpointKeeps(s);
    var c := Checkpoint(s);
    var a := AccountOf(c, who);
    var b := a.(rewards := EarnedAt(a, c.rewardPerTokenStored), paid := c.rewardPerTokenStored);
    var t := Put(c, who, b);
    SameStreams(c, t);
    WriteKeeps(c, t, who, b);
    SettledView(t);
  }

  /** Right after a checkpoint the view reads the stored accumulator, whatever was staked or injected since. */
  lemma SettledView(t: State)
    requires t.lastUpdate == t.now
    ensures PendingFlow(t) == 0 && RewardPerToken(t) == t.rewardPerTokenStored
  {
    if t.totalStaked != 0 {
      MulDivUnique(0, ONE, t.totalStaked, 0);
    }
  }

  // ---- Coverage ----

  /**
   The reward reserve covers everything promised, floors and all: what every user has earned by now, what is
   still to stream and the idle bucket.
   */
  lemma ReserveCoversPromises(s: State)
    requires Inv(s)
    ensures SumEarned(s) + UnflowedAt(s, s.now) + s.idleRewards <= s.rewardReserve
  {
    CheckpointKeeps(s);
    var c := Checkpoint(s);
    var rpt := c.rewardPerTokenStored;
    forall who | who in c.accounts
      ensures ONE * EarnedBy(rpt)(c.accounts[who]) <= Accrued(rpt)(c.accounts[who])
    {
    }
    SumScaledBound(c.accounts, EarnedBy(rpt), Accrued(rpt), ONE);
    assert ONE * SumEarned(s) <= ONE * (c.rewardReserve - c.idleRewards - UnflowedAt(c, s.now));
    assert UnflowedAt(c, s.now) == UnflowedAt(s, s.now);
  }

  lemma EarnedIsCovered(s: State, who: Address)
    requires Inv(s)
    ensures Earned(s, who) <= s.rewardReserve
  {
    ReserveCoversPromises(s);
    if who in s.accounts {
      SumCoversEntry(s.accounts, who, EarnedBy(RewardPerToken(s)));
    } else {
      MulDivUnique(0, RewardPerToken(s), ONE, 0);
      SumNonNegative(s.accounts, EarnedBy(RewardPerToken(s)));
    }
  }

  // ---- Transactions ----

  /** A settled account's claim is its rewards alone, whatever its stake. */
  lemma SettledWriteKeeps(s: State, t: State, who: Address, a: Account)
    requires Inv(s) && AccountOf(s, who).paid == s.rewardPerTokenStored == a.paid
    requires who in s.accounts
    requires t == s.(accounts := s.accounts[who := a], totalStaked := t.totalStaked, balance := t.balance,
                     rewardReserve := t.rewardReserve, totalPaid := t.totalPaid, compounded := t.compounded)
    requires t.totalStaked == s.totalStaked - AccountOf(s, who).staked + a.staked
    requires t.balance == t.totalStaked + t.rewardReserve + t.donated
    requires t.rewardReserve + t.totalPaid + t.compounded == s.rewardReserve + s.totalPaid + s.compounded
    requires a.rewards - AccountOf(s, who).rewards == t.rewardReserve - s.rewardReserve
    ensures Inv(t)
  {
    SameStreams(s, t);
    WriteKeeps(s, t, who, a);
  }

  /** The cap in `_pay` never binds: what is owed is paid in full. */
  lemma PayKeeps(s: State, who: Address)
    requires Inv(s)
    ensures var r := Pay(s, who);
            var owed := AccountOf(s, who).rewards;
            && r.Success? && r.value.1 == owed && Inv(r.value.0)
            && r.value.0.lastUpdate == s.lastUpdate && r.value.0.now == s.now
            && r.value.0.rewardPerTokenStored == s.rewardPerTokenStored
            && r.value.0.totalStaked == s.totalStaked
            && r.value.0.balance == s.balance - owed
            && AccountOf(r.value.0, who) == AccountOf(s, who).(rewards := 0)
            && (forall other :: other != who ==> AccountOf(r.value.0, other) == AccountOf(s, other))
  {
    EarnedIsCovered(s, who);
    var a := AccountOf(s, who);
    SumNonNegative(s.accounts, Staked());
    if a.rewards != 0 {
      var t := Pay(s, who).value.0;
      SameStreams(s, t);
      WriteKeeps(s, t, who, a.(rewards := 0));
    }
  }

  /** A settled account has earned what it has recorded. */
  lemma SettledEarnings(t: State, who: Address)
    requires t.lastUpdate == t.now && AccountOf(t, who).paid == t.rewardPerTokenStored
    ensures Earned(t, who) == AccountOf(t, who).rewards
  {
    SettledView(t);
    MulDivUnique(AccountOf(t, who).staked, 0, ONE, 0);
  }

  lemma StakeKeeps(s: State, who: Address, amount: nat)
    requires Inv(s)
    ensures var r := Stake(s, who, amount);
            && (r.Success? <==> !s.paused && 0 < amount && s.totalStaked + amount <= s.stakeCap)
            && (r.Success? ==>
                  && Inv(r.value) && r.value.lastUpdate == s.now
                  && r.value.rewardPerTokenStored == RewardPerToken(s)
                  && AccountOf(r.value, who).staked == AccountOf(s, who).staked + amount
                  && Earned(r.value, who) == Earned(s, who)
                  && r.value.totalStaked == s.totalStaked + amount && r.value.rewardReserve == s.rewardReserve
                  && r.value.balance == s.balance + amount)
  {
    CheckpointForKeeps(s, who);
    if Stake(s, who, amount).Success? {
      var c := CheckpointFor(s, who).value;
      var a := AccountOf(c, who);
      SettledWriteKeeps(c, Stake(s, who, amount).value, who, a.(staked := a.staked + amount));
      SettledEarnings(Stake(s, who, amount).value, who);
    }
  }

  lemma RewardLegKeeps(s: State, who: Address, leg: Leg)
    requires Inv(s)
    ensures var (t, paid) := RewardLeg(s, who, leg);
            && Inv(t)
            && paid == (if leg == Settled then Earned(s, who) else 0)
            && t.balance == s.balance - paid
            && t.totalStaked == s.totalStaked && AccountOf(t, who).staked == AccountOf(s, who).staked
            && (forall other :: other != who ==> AccountOf(t, other) == AccountOf(s, other))
            && (leg != Skipped ==> t.lastUpdate == s.now == t.now && t.rewardPerTokenStored == RewardPerToken(s))
            && (leg == Skipped ==> t == s)
  {
    hide Inv, Pay;
    CheckpointForKeeps(s, who);
    PayKeeps(CheckpointFor(s, who).value, who);
  }

  /** The principal leg of `unstake`, whether or not the account was settled first. */
  lemma WithdrawKeeps(t: State, who: Address, amount: nat)
    requires Inv(t) && 0 < amount <= AccountOf(t, who).staked
    ensures amount <= t.totalStaked <= t.balance
    ensures Inv(Put(t, who, AccountOf(t, who).(staked := AccountOf(t, who).staked - amount)).(
              totalStaked := t.totalStaked - amount, balance := t.balance - amount))
  {
    var a := AccountOf(t, who);
    var b := a.(staked := a.staked - amount);
    SumCoversEntry(t.accounts, who, Staked());
    var u := Put(t, who, b).(totalStaked := t.totalStaked - amount, balance := t.balance - amount);
    SameStreams(t, u);
    MulLe(b.staked, a.staked, t.rewardPerTokenStored - a.paid);
    WriteKeeps(t, u, who, b);
  }

  /**
   Exits never fail: whatever happens to the reward leg, unstaking up to one's stake returns exactly the principal,
   plus everything earned when the reward leg completes.
   */
  lemma UnstakeKeeps(s: State, who: Address, amount: nat, leg: Leg)
    requires Inv(s)
    ensures var r := Unstake(s, who, amount, leg);
            && (r.Success? <==> 0 < amount <= AccountOf(s, who).staked)
            && (r.Success? ==>
                  && Inv(r.value.0)
                  && r.value.1 == (if leg == Settled then Earned(s, who) else 0)
                  && r.value.0.balance == s.balance - amount - r.value.1
                  && AccountOf(r.value.0, who).staked == AccountOf(s, who).staked - amount)
  {
    hide Inv, RewardLeg, Earned;
    RewardLegKeeps(s, who, leg);
    if 0 < amount <= AccountOf(s, who).staked {
      var (t, paid) := RewardLeg(s, who, leg);
      WithdrawKeeps(t, who, amount);
    }
  }

  /** Claiming pays everything earned, paused or not. */
  lemma ClaimKeeps(s: State, who: Address)
    requires Inv(s)
    ensures var r := Claim(s, who);
            && r.Success? && Inv(r.value.0)
            && r.value.1 == Earned(s, who)
            && r.value.0.balance == s.balance - Earned(s, who)
            && r.value.0.lastUpdate == s.now && r.value.0.rewardPerTokenStored == RewardPerToken(s)
            && Earned(r.value.0, who) == 0
  {
    CheckpointForKeeps(s, who);
    var c := CheckpointFor(s, who).value;
    PayKeeps(c, who);
    SettledEarnings(Claim(s, who).value.0, who);
  }

  /** The reserve check in `compound` never binds. */
  lemma CompoundKeeps(s: State, who: Address)
    requires Inv(s)
    ensures var r := Compound(s, who);
            && (r.Success? <==> !s.paused && 0 < Earned(s, who) && s.totalStaked + Earned(s, who) <= s.stakeCap)
            && (r.Success? ==>
                  && Inv(r.value) && r.value.balance == s.balance
                  && r.value.lastUpdate == s.now && r.value.rewardPerTokenStored == RewardPerToken(s)
                  && AccountOf(r.value, who).staked == AccountOf(s, who).staked + Earned(s, who)
                  && Earned(r.value, who) == 0
                  && r.value.totalStaked == s.totalStaked + Earned(s, who)
                  && r.value.rewardReserve == s.rewardReserve - Earned(s, who))
  {
    CheckpointForKeeps(s, who);
    EarnedIsCovered(s, who);
    if Compound(s, who).Success? {
      var c := CheckpointFor(s, who).value;
      var a := AccountOf(c, who);
      SettledWriteKeeps(c, Compound(s, who).value, who, a.(rewards := 0, staked := a.staked + a.rewards));
      SettledEarnings(Compound(s, who).value, who);
    }
  }

  // ---- Funding ----

  /** With the accounts untouched, only the backing matters. */
  lemma BackingKeeps(s: State, t: State)
    requires Inv(s)
    requires t.accounts == s.accounts && t.rewardPerTokenStored == s.rewardPerTokenStored
    requires t.totalStaked == s.totalStaked && t.lastUpdate <= t.now
    requires t.balance == t.totalStaked + t.rewardReserve + t.donated
    requires t.rewardReserve + t.totalPaid + t.compounded == t.buyback.injected + t.genesis.injected
    requires Backing(s) <= Backing(t)
    ensures Inv(t)
  {
    MulLe(Backing(s), Backing(t), ONE);
  }

  /**
   Opening a stream keeps every unit: what was still to stream plus the new amount becomes the new stream plus the
   truncation remainder.
   */
  lemma OpenStreamConserves(s: State, id: LaneId, amount: nat)
    requires s.lastUpdate == s.now
    ensures var t := OpenStream(s, id, amount);
            UnflowedAt(t, s.now) + t.idleRewards == UnflowedAt(s, s.now) + s.idleRewards + amount
  {
    var rate, d := NewRate(s, id, amount), Duration(id);
    assert LaneUnflowed(LaneOf(OpenStream(s, id, amount), id), s.now) == rate * d by {
      assert (s.now + d - s.now) * rate == rate * d;
    }
  }

  lemma OpenStreamKeeps(s: State, id: LaneId, amount: nat)
    requires Inv(s.(idleRewards := s.idleRewards + amount)) && s.lastUpdate == s.now
    ensures Inv(OpenStream(s, id, amount))
  {
    OpenStreamConserves(s, id, amount);
    BackingKeeps(s.(idleRewards := s.idleRewards + amount), OpenStream(s, id, amount));
  }

  /** "underfunded" never binds. */
  lemma StartPeriodKeeps(s: State, id: LaneId, amount: nat)
    requires Inv(s.(idleRewards := s.idleRewards + amount)) && s.lastUpdate == s.now
    ensures var r := StartPeriod(s, id, amount);
            && (r.Success? <==> Duration(id) <= Folded(s, id, amount))
            && (r.Failure? ==> r.error == RewardTooSmall)
            && (r.Success? ==> r.value == OpenStream(s, id, amount) && Inv(r.value))
  {
    OpenStreamKeeps(s, id, amount);
    var t := OpenStream(s, id, amount);
    ReserveCoversPromises(t);
    SumNonNegative(t.accounts, EarnedBy(RewardPerToken(t)));
  }

  lemma InjectKeeps(s: State, id: LaneId, amount: nat)
    requires Inv(s) && s.lastUpdate == s.now
    ensures var r := Inject(s, id, amount);
            && (r.Failure? ==> r.error == RewardTooSmall && amount < Duration(id))
            && (r.Success? ==> r.value == OpenStream(Receive(s, id, amount), id, amount) && Inv(r.value))
  {
    StartPeriodKeeps(Receive(s, id, amount), id, amount);
  }

  /** A funding transaction moves no account and fails only on its own conditions. */
  ghost predicate FundingOutcome(s: State, r: Result<State, Error>) {
    && (r.Failure? ==> r.error !in {Underfunded, Underflow, TransferFailed, ReserveShort})
    && (r.Success? ==>
          && Inv(r.value)
          && r.value.rewardPerTokenStored == RewardPerToken(s)
          && r.value.accounts == s.accounts && r.value.totalStaked == s.totalStaked
          && r.value.lastUpdate == s.now == r.value.now)
  }

  lemma NotifyKeeps(s: State, fromDistributor: bool, amount: nat)
    requires Inv(s)
    ensures var r := NotifyBuyback(s, fromDistributor, amount);
            && FundingOutcome(s, r)
            && (r.Success? <==> !s.paused && fromDistributor && MIN_NOTIFY <= amount)
  {
    CheckpointKeeps(s);
    InjectKeeps(Checkpoint(s), Buyback, amount);
  }

  lemma SeedKeeps(s: State, fromOwner: bool, amount: nat)
    requires Inv(s)
    ensures var r := SeedGenesis(s, fromOwner, amount);
            && FundingOutcome(s, r)
            && (r.Success? <==> fromOwner && !s.paused && !s.genesisSeeded && MIN_NOTIFY <= amount)
  {
    var seeded := s.(genesisSeeded := true);
    BackingKeeps(s, seeded);
    assert RewardPerToken(seeded) == RewardPerToken(s);
    CheckpointKeeps(seeded);
    InjectKeeps(Checkpoint(seeded), Genesis, amount);
  }

  lemma ReallocateKeeps(s: State, fromOwner: bool)
    requires Inv(s)
    ensures FundingOutcome(s, ReallocateIdle(s, fromOwner))
  {
    CheckpointKeeps(s);
    var c := Checkpoint(s);
    assert c.(idleRewards := 0).(idleRewards := c.idleRewards) == c;
    StartPeriodKeeps(c.(idleRewards := 0), Buyback, c.idleRewards);
  }

  // ---- Runs ----

  lemma StepKeeps(s: State, op: Op)
    requires Inv(s)
    ensures Inv(Step(s, op))
    ensures var r := Attempt(s, op);
            r.Failure? ==> r.error !in {Underflow, TransferFailed, ReserveShort, Underfunded}
  {
    match op
    case OpStake(who, amount) => StakeKeeps(s, who, amount); CheckpointForKeeps(s, who);
    case OpUnstake(who, amount, leg) => UnstakeKeeps(s, who, amount, leg);
    case OpClaim(who) => ClaimKeeps(s, who);
    case OpCompound(who) => CompoundKeeps(s, who); CheckpointForKeeps(s, who); EarnedIsCovered(s, who);
    case OpNotifyBuyback(fromDistributor, amount) => NotifyKeeps(s, fromDistributor, amount);
    case OpSeedGenesis(fromOwner, amount) => SeedKeeps(s, fromOwner, amount);
    case OpReallocateIdle(fromOwner) => ReallocateKeeps(s, fromOwner);
    case _ =>
  }

  lemma {:induction false} RunKeeps(s: State, ops: seq<Op>)
    requires Inv(s)
    ensures Inv(Run(s, ops))
    decreases |ops|
  {
    if ops != [] {
      StepKeeps(s, ops[0]);
      RunKeeps(Step(s, ops[0]), ops[1..]);
    }
  }

  /**
   Reserve coverage over all runs, whichever reward legs of `unstake` fail: the reserve alone covers every earned
   reward, the remaining stream and the idle bucket; the balance is principal plus reserve; principal is the sum of
   stakes; nothing is over-issued; and the cap, "reserve" and "underfunded" checks never decide a transaction.
   */
  lemma AlwaysSolvent(stakeCap: nat, start: nat, ops: seq<Op>, op: Op)
    ensures var s := Run(Deploy(stakeCap, start), ops);
            && SumEarned(s) + UnflowedAt(s, s.now) + s.idleRewards <= s.rewardReserve
            && s.balance == s.totalStaked + s.rewardReserve + s.donated
            && s.totalStaked == Sum(s.accounts, Staked())
            && s.totalPaid + s.compounded + SumEarned(s) <= s.buyback.injected + s.genesis.injected
            && (Attempt(s, op).Failure? ==>
                  Attempt(s, op).error !in {Underflow, TransferFailed, ReserveShort, Underfunded})
  {
    var d := Deploy(stakeCap, start);
    assert Inv(d);
    RunKeeps(d, ops);
    ReserveCoversPromises(Run(d, ops));
    StepKeeps(Run(d, ops), op);
  }
}
