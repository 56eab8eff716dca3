/**
 What SolonStaking's roundings strand. The reserve covers every claim (SolonStakingRuns); here the surplus over the
 claims is bounded from above: dust per transaction, and the share a failed checkpoint forfeits.
 */
module SolonStakingDust {
  import opened Balances
  import opened FloorMath
  import opened Outcomes
  import opened MapSums
  import opened SolonStakingModel
  import opened SolonStakingRuns

  /** The scaled backing beyond the scaled claims; coverage says it is never negative. */
  ghost function Surplus(s: State): int {
    ONE * Backing(s) - Sum(s.accounts, Accrued(s.rewardPerTokenStored))
  }

  /** A transaction that strands less than one scaled unit per staked token and one unit more. */
  ghost predicate StrandsDust(s: State, t: State) {
    Surplus(s) <= Surplus(t) < Surplus(s) + s.totalStaked + ONE
  }

  // ---- Checkpoints ----

  /** Moving the accumulator strands less than one scaled unit per staked token, and nothing while nobody stakes. */
  lemma CheckpointSurplus(s: State)
    requires Inv(s)
    ensures Surplus(s) <= Surplus(Checkpoint(s)) <= Surplus(s) + s.totalStaked
  {
    FlowSplits(s);
    assert Backing(Checkpoint(s)) - Backing(s) == if s.totalStaked == 0 then 0 else PendingFlow(s);
    if s.totalStaked != 0 {
      AccruedGrows(s, MulDiv(PendingFlow(s), ONE, s.totalStaked));
    }
  }

  /** Writing one account moves the surplus by the backing it takes or leaves and by the change of its claim. */
  lemma WriteSurplus(s: State, t: State, who: Address, a: Account)
    requires t.accounts == s.accounts[who := a] && t.rewardPerTokenStored == s.rewardPerTokenStored
    requires t.buyback == s.buyback && t.genesis == s.genesis && t.lastUpdate == s.lastUpdate
    requires t.idleRewards == s.idleRewards
    ensures Surplus(t) - Surplus(s)
            == ONE * (t.rewardReserve - s.rewardReserve) - (Accrued(s.rewardPerTokenStored)(a) - ClaimOf(s, who))
  {
    SameStreams(s, t);
    SumUpdate(s.accounts, who, a, Accrued(s.rewardPerTokenStored));
  }

  /** Settling an account strands less than one unit more: the floor of its own claim. */
  lemma CheckpointForSurplus(s: State, who: Address)
    requires Inv(s)
    ensures var r := CheckpointFor(s, who); r.Success? && StrandsDust(s, r.value)
  {
    hide Inv, Checkpoint, CheckpointFor, Surplus;
    CheckpointKeeps(s);
    CheckpointSurplus(s);
    CheckpointForKeeps(s, who);
    SettlingSurplus(Checkpoint(s), who);
    SettlingWrites(s, who);
  }

  /** _checkpoint(who) is a checkpoint and one written account. */
  lemma SettlingWrites(s: State, who: Address)
    requires CheckpointFor(s, who).Success?
    ensures var c := Checkpoint(s);
            && c.totalStaked == s.totalStaked && AccountOf(c, who).paid <= c.rewardPerTokenStored
            && CheckpointFor(s, who).value == Put(c, who, SettledAccount(c, who))
  {
  }

  ghost function SettledAccount(c: State, who: Address): Account {
    AccountOf(c, who).(rewards := EarnedAt(AccountOf(c, who), c.rewardPerTokenStored), paid := c.rewardPerTokenStored)
  }

  lemma SettlingSurplus(c: State, who: Address)
    requires Inv(c)
    ensures Surplus(c) <= Surplus(Put(c, who, SettledAccount(c, who))) < Surplus(c) + ONE
  {
    hide Surplus;
    WriteSurplus(c, Put(c, who, SettledAccount(c, who)), who, SettledAccount(c, who));
    FlooredClaim(AccountOf(c, who), c.rewardPerTokenStored);
  }

  lemma FlooredClaim(a: Account, r: nat)
    requires a.paid <= r
    ensures Accrued(r)(a) - ONE < ONE * EarnedAt(a, r) <= Accrued(r)(a)
  {
    Distribute(MulDiv(a.staked, r - a.paid, ONE), a.rewards, ONE);
  }

  // ---- Transactions ----

  /** A settled account's claim is its rewards: moving stake strands nothing, and moving rewards moves both sides. */
  lemma SettledWriteSurplus(s: State, t: State, who: Address, a: Account)
    requires who in s.accounts && AccountOf(s, who).paid == s.rewardPerTokenStored == a.paid
    requires t == s.(accounts := s.accounts[who := a], totalStaked := t.totalStaked, balance := t.balance,
                     rewardReserve := t.rewardReserve, totalPaid := t.totalPaid, compounded := t.compounded)
    requires a.rewards - AccountOf(s, who).rewards == t.rewardReserve - s.rewardReserve
    ensures Surplus(t) == Surplus(s)
  {
    WriteSurplus(s, t, who, a);
  }

  lemma PaySurplus(s: State, who: Address)
    requires Inv(s)
    ensures var r := Pay(s, who); r.Success? ==> Surplus(r.value.0) == Surplus(s)
  {
    PayKeeps(s, who);
    var a := AccountOf(s, who);
    if a.rewards != 0 {
      WriteSurplus(s, Pay(s, who).value.0, who, a.(rewards := 0));
    }
  }

  lemma StakeSurplus(s: State, who: Address, amount: nat)
    requires Inv(s)
    ensures var r := Stake(s, who, amount); r.Success? ==> StrandsDust(s, r.value)
  {
    CheckpointForKeeps(s, who);
    CheckpointForSurplus(s, who);
    var r := Stake(s, who, amount);
    if r.Success? {
      var c := CheckpointFor(s, who).value;
      SettledWriteSurplus(c, r.value, who, AccountOf(c, who).(staked := AccountOf(c, who).staked + amount));
    }
  }

  lemma CompoundSurplus(s: State, who: Address)
    requires Inv(s)
    ensures var r := Compound(s, who); r.Success? ==> StrandsDust(s, r.value)
  {
    CheckpointForKeeps(s, who);
    CheckpointForSurplus(s, who);
    var r := Compound(s, who);
    if r.Success? {
      var c := CheckpointFor(s, who).value;
      var a := AccountOf(c, who);
      SettledWriteSurplus(c, r.value, who, a.(rewards := 0, staked := a.staked + a.rewards));
    }
  }

  lemma ClaimSurplus(s: State, who: Address)
    requires Inv(s)
    ensures var r := Claim(s, who); r.Success? ==> StrandsDust(s, r.value.0)
  {
    CheckpointForKeeps(s, who);
    CheckpointForSurplus(s, who);
    PaySurplus(CheckpointFor(s, who).value, who);
  }

  lemma RewardLegSurplus(s: State, who: Address, leg: Leg)
    requires Inv(s) && leg != Skipped
    ensures var t := RewardLeg(s, who, leg).0;
            StrandsDust(s, t) && AccountOf(t, who).paid == t.rewardPerTokenStored
  {
    CheckpointForKeeps(s, who);
    CheckpointForSurplus(s, who);
    PayKeeps(CheckpointFor(s, who).value, who);
    PaySurplus(CheckpointFor(s, who).value, who);
  }

  /** Taking out principal strands the withdrawn stake's unsettled share. */
  lemma WithdrawSurplus(t: State, u: State, who: Address, amount: nat)
    requires 0 < amount <= AccountOf(t, who).staked
    requires u == Put(t, who, AccountOf(t, who).(staked := AccountOf(t, who).staked - amount)).(
                    totalStaked := u.totalStaked, balance := u.balance)
    ensures Surplus(u) == Surplus(t) + amount * (t.rewardPerTokenStored - AccountOf(t, who).paid)
  {
    var a := AccountOf(t, who);
    WriteSurplus(t, u, who, a.(staked := a.staked - amount));
    Distribute(a.staked, amount, t.rewardPerTokenStored - a.paid);
  }

  /** An exit strands dust; one whose checkpoint fails strands exactly the share it forfeits. */
  lemma UnstakeSurplus(s: State, who: Address, amount: nat, leg: Leg)
    requires Inv(s)
    ensures var r := Unstake(s, who, amount, leg);
            r.Success? ==>
              && (leg != Skipped ==> StrandsDust(s, r.value.0))
              && (leg == Skipped ==>
                    Surplus(r.value.0) == Surplus(s) + amount * (s.rewardPerTokenStored - AccountOf(s, who).paid))
  {
    hide Unstake, RewardLeg, Surplus;
    RewardLegKeeps(s, who, leg);
    var r := Unstake(s, who, amount, leg);
    if r.Success? {
      UnstakeIsWithdraw(s, who, amount, leg);
      WithdrawSurplus(RewardLeg(s, who, leg).0, r.value.0, who, amount);
      if leg != Skipped {
        RewardLegSurplus(s, who, leg);
      }
    }
  }

  lemma UnstakeIsWithdraw(s: State, who: Address, amount: nat, leg: Leg)
    requires Unstake(s, who, amount, leg).Success?
    ensures var t, u := RewardLeg(s, who, leg).0, Unstake(s, who, amount, leg).value.0;
            && 0 < amount <= AccountOf(s, who).staked
            && u == Put(t, who, AccountOf(t, who).(staked := AccountOf(s, who).staked - amount)).(
                      totalStaked := u.totalStaked, balance := u.balance)
  {
    hide RewardLeg;
  }

  /** With accounts and accumulator untouched the surplus follows the backing. */
  lemma BackingSurplus(s: State, t: State)
    requires t.accounts == s.accounts && t.rewardPerTokenStored == s.rewardPerTokenStored
    requires Backing(t) == Backing(s)
    ensures Surplus(t) == Surplus(s)
  {
  }

  lemma InjectSurplus(s: State, id: LaneId, amount: nat)
    requires Inv(s) && s.lastUpdate == s.now
    ensures var r := Inject(s, id, amount); r.Success? ==> Surplus(r.value) == Surplus(s)
  {
    InjectKeeps(s, id, amount);
    var p := Receive(s, id, amount);
    OpenStreamConserves(p, id, amount);
    assert UnflowedAt(p, s.now) == UnflowedAt(s, s.now);
    BackingSurplus(s, OpenStream(p, id, amount));
  }

  lemma FundingSurplus(s: State, op: Op)
    requires Inv(s) && (op.OpNotifyBuyback? || op.OpSeedGenesis? || op.OpReallocateIdle?)
    ensures Attempt(s, op).Success? ==> StrandsDust(s, Step(s, op))
  {
    hide Inject, StartPeriod;
    match op
    case OpNotifyBuyback(fromDistributor, amount) =>
      CheckpointKeeps(s);
      CheckpointSurplus(s);
      InjectSurplus(Checkpoint(s), Buyback, amount);
    case OpSeedGenesis(fromOwner, amount) =>
      var seeded := s.(genesisSeeded := true);
      BackingKeeps(s, seeded);
      BackingSurplus(s, seeded);
      CheckpointKeeps(seeded);
      CheckpointSurplus(seeded);
      InjectSurplus(Checkpoint(seeded), Genesis, amount);
    case OpReallocateIdle(fromOwner) =>
      CheckpointKeeps(s);
      CheckpointSurplus(s);
      ReallocateSurplus(Checkpoint(s));
    case _ =>
  }

  lemma ReallocateSurplus(c: State)
    requires Inv(c) && c.lastUpdate == c.now
    ensures var r := StartPeriod(c.(idleRewards := 0), Buyback, c.idleRewards);
            r.Success? ==> Surplus(r.value) == Surplus(c)
  {
    var e := c.(idleRewards := 0);
    assert e.(idleRewards := c.idleRewards) == c;
    StartPeriodKeeps(e, Buyback, c.idleRewards);
    OpenStreamConserves(e, Buyback, c.idleRewards);
    BackingSurplus(c, OpenStream(e, Buyback, c.idleRewards));
  }

  // ---- Runs ----

  ghost predicate Skips(op: Op) {
    op.OpUnstake? && op.leg == Skipped
  }

  lemma StepSurplus(s: State, op: Op)
    requires Inv(s) && !Skips(op)
    ensures StrandsDust(s, Step(s, op))
  {
    hide Stake, Unstake, Claim, Compound, NotifyBuyback, SeedGenesis, ReallocateIdle, Inv;
    match op
    case OpStake(who, amount) => StakeSurplus(s, who, amount);
    case OpUnstake(who, amount, leg) => UnstakeSurplus(s, who, amount, leg);
    case OpClaim(who) => ClaimSurplus(s, who);
    case OpCompound(who) => CompoundSurplus(s, who);
    case OpNotifyBuyback(_, _) => FundingSurplus(s, op);
    case OpSeedGenesis(_, _) => FundingSurplus(s, op);
    case OpReallocateIdle(_) => FundingSurplus(s, op);
    case _ => BackingSurplus(s, Step(s, op));
  }

  /** One scaled unit per token staked at each transaction, and one unit more for each. */
  function DustBound(s: State, ops: seq<Op>): nat
    decreases |ops|
  {
    if ops == [] then 0 else s.totalStaked + ONE + DustBound(Step(s, ops[0]), ops[1..])
  }

  lemma {:induction false} RunSurplus(s: State, ops: seq<Op>)
    requires Inv(s) && forall i :: 0 <= i < |ops| ==> !Skips(ops[i])
    ensures Surplus(s) <= Surplus(Run(s, ops)) <= Surplus(s) + DustBound(s, ops)
    decreases |ops|
  {
    if ops != [] {
      StepKeeps(s, ops[0]);
      StepSurplus(s, ops[0]);
      RunSurplus(Step(s, ops[0]), ops[1..]);
    }
  }

  /** Entrywise g < a * f + a gives a sum short by at most `a` per entry. */
  lemma {:induction false} SumFloorGap<K, V>(m: map<K, V>, f: V -> int, g: V -> int, a: int)
    requires forall k :: k in m ==> g(m[k]) < a * f(m[k]) + a
    ensures Sum(m, g) <= a * Sum(m, f) + a * |m|
    decreases |m|
  {
    if m != map[] {
      var k :| k in m && Sum(m, f) == f(m[k]) + Sum(m - {k}, f);
      SumSplit(m, k, g);
      SumFloorGap(m - {k}, f, g, a);
      assert |m| == |m - {k}| + 1;
      Distribute(f(m[k]), Sum(m - {k}, f), a);
      Distribute(|m - {k}|, 1, a);
    }
  }

  /** What the reserve holds beyond what has been earned, will stream or is idle. */
  ghost function Unpromised(s: State): int {
    s.rewardReserve - SumEarned(s) - UnflowedAt(s, s.now) - Checkpoint(s).idleRewards
  }

  /** It is the surplus after a checkpoint and each account's floor. */
  lemma UnpromisedIsSurplus(s: State)
    requires Inv(s)
    ensures 0 <= ONE * Unpromised(s) <= Surplus(s) + s.totalStaked + ONE * |s.accounts|
  {
    CheckpointKeeps(s);
    CheckpointSurplus(s);
    SettledSurplus(Checkpoint(s));
    ReserveCoversPromises(Checkpoint(s));
    SettledView(Checkpoint(s));
    SameAccounts(s);
  }

  lemma SameAccounts(s: State)
    ensures var c := Checkpoint(s);
            && c.accounts == s.accounts && c.rewardReserve == s.rewardReserve && c.now == s.now
            && UnflowedAt(c, s.now) == UnflowedAt(s, s.now)
  {
  }

  lemma SettledSurplus(c: State)
    requires Inv(c) && c.lastUpdate == c.now
    ensures ONE * (Backing(c) - SumEarned(c)) <= Surplus(c) + ONE * |c.accounts|
  {
    SettledView(c);
    var rpt := c.rewardPerTokenStored;
    forall who | who in c.accounts
      ensures Accrued(rpt)(c.accounts[who]) < ONE * EarnedBy(rpt)(c.accounts[who]) + ONE
    {
      FlooredClaim(c.accounts[who], rpt);
    }
    SumFloorGap(c.accounts, EarnedBy(rpt), Accrued(rpt), ONE);
  }

  /**
   The other side of coverage. Over every run in which no exit's checkpoint fails, what the reserve holds beyond all
   earned rewards, remaining streams and idle rewards is dust: per transaction less than one scaled unit for each
   staked token and one unit more, and one unit for each account.
   */
  lemma OnlyDustIsStranded(stakeCap: nat, start: nat, ops: seq<Op>)
    requires forall i :: 0 <= i < |ops| ==> !Skips(ops[i])
    ensures var d := Deploy(stakeCap, start);
            var s := Run(d, ops);
            0 <= ONE * Unpromised(s) <= DustBound(d, ops) + s.totalStaked + ONE * |s.accounts|
  {
    var d := Deploy(stakeCap, start);
    assert Inv(d);
    RunKeeps(d, ops);
    RunSurplus(d, ops);
    UnpromisedIsSurplus(Run(d, ops));
    assert Surplus(d) == 0;
  }
}
