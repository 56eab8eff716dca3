/** src/stake/SolonStaking.sol field by field; every method is proved against its transaction in SolonStakingModel. */
module SolonStakingContract {
  import opened Balances
  import opened FloorMath
  import opened Outcomes
  import opened Model = SolonStakingModel
  import opened SolonStakingRuns

  const LANES: nat := 2

  class SolonStaking {
    const lanes: array<Lane>
    var lastUpdateTime: nat
    var rewardPerTokenStored: nat
    var totalStaked: nat
    var rewardReserve: nat
    var idleRewards: nat
    var totalPaid: nat
    // stakedOf, userRewardPerTokenPaid and rewards, keyed alike.
    var accounts: map<Address, Account>
    var stakeCap: nat
    var paused: bool
    var genesisSeeded: bool
    // The chain around the contract.
    var balance: nat
    var timestamp: nat
    // An observer's running totals.
    var compounded: nat
    var donated: nat

    ghost function Snapshot(): State
      requires lanes.Length == LANES
      reads this, lanes
    {
      State(lanes[0], lanes[1], lastUpdateTime, rewardPerTokenStored, totalStaked, rewardReserve, idleRewards,
            totalPaid, accounts, stakeCap, paused, genesisSeeded, balance, timestamp, compounded, donated)
    }

    /** The invariant of every run: principal and rewards are covered by the one balance. */
    ghost predicate Valid()
      reads this, lanes
    {
      lanes.Length == LANES && Inv(Snapshot())
    }

    constructor (stakeCap: nat, timestamp: nat)
      ensures Valid() && fresh(lanes)
      ensures Snapshot() == Deploy(stakeCap, timestamp)
    {
      lanes := new Lane[LANES](_ => Lane(0, 0, 0));
      lastUpdateTime, rewardPerTokenStored := timestamp, 0;
      totalStaked, rewardReserve, idleRewards, totalPaid := 0, 0, 0, 0;
      accounts := map[];
      this.stakeCap, paused, genesisSeeded := stakeCap, false, false;
      balance, this.timestamp := 0, timestamp;
      compounded, donated := 0, 0;
    }

    function Entry(who: Address): Account
      reads this
    {
      if who in accounts then accounts[who] else NO_ACCOUNT
    }

    /** _pendingFlow: what both lanes streamed since the last update. */
    method PendingFlow() returns (flow: nat)
      requires lanes.Length == LANES
      ensures flow == Model.PendingFlow(Snapshot())
    {
      flow := 0;
      var last := lastUpdateTime;
      for i := 0 to LANES
        invariant flow == (if 0 < i then LaneFlow(lanes[0], last, timestamp) else 0)
                        + (if 1 < i then LaneFlow(lanes[1], last, timestamp) else 0)
      {
        var l := lanes[i];
        var end := if timestamp < l.periodFinish then timestamp else l.periodFinish;
        if last < end {
          flow := flow + Streamed(last, end, l.rate);
        }
      }
    }

    /** unflowedRewards. */
    method UnflowedRewards() returns (u: nat)
      requires lanes.Length == LANES
      ensures u == UnflowedAt(Snapshot(), timestamp)
    {
      u := 0;
      for i := 0 to LANES
        invariant u == (if 0 < i then LaneUnflowed(lanes[0], timestamp) else 0)
                     + (if 1 < i then LaneUnflowed(lanes[1], timestamp) else 0)
      {
        var l := lanes[i];
        if timestamp < l.periodFinish {
          u := u + Streamed(timestamp, l.periodFinish, l.rate);
        }
      }
    }

    method Earned(who: Address) returns (earned: nat)
      requires lanes.Length == LANES
      ensures earned == Model.Earned(Snapshot(), who)
      ensures Valid() ==> earned <= rewardReserve
    {
      if Valid() {
        EarnedIsCovered(Snapshot(), who);
      }
      var rewardPerToken := rewardPerTokenStored;
      if totalStaked != 0 {
        var flow := PendingFlow();
        rewardPerToken := rewardPerToken + MulDiv(flow, ONE, totalStaked);
      }
      earned := EarnedAt(Entry(who), rewardPerToken);
    }

    method Checkpoint()
      requires lanes.Length == LANES
      modifies `idleRewards, `rewardPerTokenStored, `lastUpdateTime
      ensures Snapshot() == Model.Checkpoint(old(Snapshot()))
    {
      var flow := PendingFlow();
      if 0 < flow {
        if totalStaked == 0 {
          idleRewards := idleRewards + flow;
        } else {
          rewardPerTokenStored := rewardPerTokenStored + MulDiv(flow, ONE, totalStaked);
        }
      } else if totalStaked != 0 {
        MulDivUnique(0, ONE, totalStaked, 0);
      }
      lastUpdateTime := timestamp;
    }

    /** _checkpoint(who); a user ahead of the accumulator would revert, and then nothing has changed. */
    method CheckpointFor(who: Address) returns (r: Result<Unit, Error>)
      requires lanes.Length == LANES
      modifies `idleRewards, `rewardPerTokenStored, `lastUpdateTime, `accounts
      ensures RealizesUnit(Model.CheckpointFor(old(Snapshot()), who), old(Snapshot()), Snapshot(), r)
    {
      var idle, stored, last := idleRewards, rewardPerTokenStored, lastUpdateTime;
      Checkpoint();
      var a := Entry(who);
      if rewardPerTokenStored < a.paid {
        idleRewards, rewardPerTokenStored, lastUpdateTime := idle, stored, last;
        return Failure(Underflow);
      }
      a := a.(rewards := EarnedAt(a, rewardPerTokenStored));
      a := a.(paid := rewardPerTokenStored);
      accounts := accounts[who := a];
      return Success(Unit);
    }

    /** _pay. */
    method Pay(who: Address) returns (r: Result<nat, Error>)
      requires lanes.Length == LANES
      modifies `accounts, `rewardReserve, `totalPaid, `balance
      ensures Realizes(Model.Pay(old(Snapshot()), who), old(Snapshot()), Snapshot(), r)
    {
      var owed := Entry(who).rewards;
      if owed == 0 {
        return Success(0);
      }
      var reserve := rewardReserve;
      var pay := if owed < reserve then owed else reserve;
      if pay == 0 {
        return Success(0);
      }
      if balance < pay {
        return Failure(TransferFailed);
      }
      accounts := accounts[who := Entry(who).(rewards := owed - pay)];
      rewardReserve := reserve - pay;
      totalPaid := totalPaid + pay;
      balance := balance - pay;
      return Success(pay);
    }

    /** Storage as a value, to return to when a transaction reverts after writing. */
    method Save() returns (s: State)
      requires lanes.Length == LANES
      ensures s == Snapshot()
    {
      s := State(lanes[0], lanes[1], lastUpdateTime, rewardPerTokenStored, totalStaked, rewardReserve, idleRewards,
                 totalPaid, accounts, stakeCap, paused, genesisSeeded, balance, timestamp, compounded, donated);
    }

    method Revert(s: State)
      requires lanes.Length == LANES
      modifies this, lanes
      ensures Snapshot() == s
    {
      lanes[0], lanes[1] := s.buyback, s.genesis;
      lastUpdateTime, rewardPerTokenStored := s.lastUpdate, s.rewardPerTokenStored;
      totalStaked, rewardReserve, idleRewards, totalPaid := s.totalStaked, s.rewardReserve, s.idleRewards, s.totalPaid;
      accounts, stakeCap, paused, genesisSeeded := s.accounts, s.stakeCap, s.paused, s.genesisSeeded;
      balance, timestamp := s.balance, s.now;
      compounded, donated := s.compounded, s.donated;
    }

    method Stake(who: Address, amount: nat) returns (r: Result<Unit, Error>)
      requires lanes.Length == LANES
      modifies this, lanes
      ensures RealizesUnit(Model.Stake(old(Snapshot()), who, amount), old(Snapshot()), Snapshot(), r)
      ensures old(Valid()) ==>
                && Valid()
                && (r.Success? <==> !old(paused) && 0 < amount && old(totalStaked) + amount <= old(stakeCap))
                && (r.Success? ==> balance == old(balance) + amount)
    {
      hide Inv, Model.Earned, Model.CheckpointFor;
      if Valid() {
        StakeKeeps(Snapshot(), who, amount);
      }
      if paused {
        return Failure(Paused);
      }
      var before := Save();
      var settled := CheckpointFor(who);
      if settled.Failure? {
        return settled;
      }
      if amount == 0 {
        Revert(before);
        return Failure(Zero);
      }
      if stakeCap < totalStaked + amount {
        Revert(before);
        return Failure(CapExceeded);
      }
      balance := balance + amount;
      totalStaked := totalStaked + amount;
      accounts := accounts[who := Entry(who).(staked := Entry(who).staked + amount)];
      return Success(Unit);
    }

    /** The two nested self-calls of `unstake`; `leg` says how far the environment lets them get. */
    method SettleAndPay(who: Address, leg: Leg) returns (paid: nat)
      requires lanes.Length == LANES
      modifies this, lanes
      ensures (Snapshot(), paid) == RewardLeg(old(Snapshot()), who, leg)
    {
      if leg == Skipped {
        return 0;
      }
      var settled := CheckpointFor(who);
      if settled.Failure? || leg == Unpaid {
        return 0;
      }
      var r := Pay(who);
      return if r.Success? then r.value else 0;
    }

    method Unstake(who: Address, amount: nat, leg: Leg) returns (r: Result<nat, Error>)
      requires lanes.Length == LANES
      modifies this, lanes
      ensures Realizes(Model.Unstake(old(Snapshot()), who, amount, leg), old(Snapshot()), Snapshot(), r)
      ensures old(Valid()) ==>
                && Valid()
                && (r.Success? <==> 0 < amount <= old(Entry(who)).staked)
                && (r.Success? ==>
                      && r.value == (if leg == Settled then Model.Earned(old(Snapshot()), who) else 0)
                      && balance == old(balance) - amount - r.value
                      && Entry(who).staked == old(Entry(who)).staked - amount)
    {
      hide Inv, Model.Earned, RewardLeg;
      if Valid() {
        UnstakeKeeps(Snapshot(), who, amount, leg);
      }
      var staked := Entry(who).staked;
      if amount == 0 || staked < amount {
        return Failure(BadAmount);
      }
      var before := Save();
      var paid := SettleAndPay(who, leg);
      if totalStaked < amount {
        Revert(before);
        return Failure(Underflow);
      }
      if balance < amount {
        Revert(before);
        return Failure(TransferFailed);
      }
      Withdraw(who, staked, amount);
      return Success(paid);
    }

    method Withdraw(who: Address, staked: nat, amount: nat)
      requires lanes.Length == LANES && amount <= staked && amount <= totalStaked && amount <= balance
      modifies `accounts, `totalStaked, `balance
      ensures var before, a := old(Snapshot()), old(Entry(who)).(staked := staked - amount);
              Snapshot() == Put(before, who, a).(totalStaked := before.totalStaked - amount,
                                                 balance := before.balance - amount)
    {
      accounts := accounts[who := Entry(who).(staked := staked - amount)];
      totalStaked := totalStaked - amount;
      balance := balance - amount;
    }

    method Claim(who: Address) returns (r: Result<nat, Error>)
      requires lanes.Length == LANES
      modifies this, lanes
      ensures Realizes(Model.Claim(old(Snapshot()), who), old(Snapshot()), Snapshot(), r)
      ensures old(Valid()) ==>
                && Valid()
                && r == Success(Model.Earned(old(Snapshot()), who)) && balance == old(balance) - r.value
                && Model.Earned(Snapshot(), who) == 0
    {
      hide Inv, Model.Earned;
      if Valid() {
        ClaimKeeps(Snapshot(), who);
      }
      var before := Save();
      var settled := CheckpointFor(who);
      if settled.Failure? {
        return Failure(settled.error);
      }
      r := Pay(who);
      if r.Failure? {
        Revert(before);
      }
    }

    method Compound(who: Address) returns (r: Result<Unit, Error>)
      requires lanes.Length == LANES
      modifies this, lanes
      ensures RealizesUnit(Model.Compound(old(Snapshot()), who), old(Snapshot()), Snapshot(), r)
      ensures old(Valid()) ==>
                var earned := Model.Earned(old(Snapshot()), who);
                && Valid()
                && (r.Success? <==> !old(paused) && 0 < earned && old(totalStaked) + earned <= old(stakeCap))
                && (r.Success? ==> balance == old(balance) && Entry(who).staked == old(Entry(who)).staked + earned)
    {
      hide Inv, Model.Earned, Model.CheckpointFor;
      if Valid() {
        CompoundKeeps(Snapshot(), who);
      }
      if paused {
        return Failure(Paused);
      }
      var before := Save();
      var settled := CheckpointFor(who);
      if settled.Failure? {
        return settled;
      }
      var reward := Entry(who).rewards;
      var blocked := if reward == 0 then Failure(Nothing)
                     else if rewardReserve < reward then Failure(ReserveShort)
                     else if stakeCap < totalStaked + reward then Failure(CapExceeded)
                     else Success(Unit);
      if blocked.Failure? {
        Revert(before);
        return blocked;
      }
      Restake(who, reward);
      return Success(Unit);
    }

    method Restake(who: Address, reward: nat)
      requires lanes.Length == LANES && reward <= rewardReserve
      modifies `accounts, `rewardReserve, `totalStaked, `compounded
      ensures var a := old(Entry(who));
              Snapshot() == Put(old(Snapshot()), who, a.(rewards := 0, staked := a.staked + reward)).(
                              rewardReserve := old(rewardReserve) - reward, totalStaked := old(totalStaked) + reward,
                              compounded := old(compounded) + reward)
    {
      accounts := accounts[who := Entry(who).(rewards := 0)];
      rewardReserve := rewardReserve - reward;
      totalStaked := totalStaked + reward;
      accounts := accounts[who := Entry(who).(staked := Entry(who).staked + reward)];
      compounded := compounded + reward;
    }

    function Index(id: LaneId): nat {
      if id == Buyback then 0 else 1
    }

    method OpenStream(id: LaneId, amount: nat) returns (started: bool)
      requires lanes.Length == LANES
      modifies `idleRewards, lanes
      ensures started == (0 < NewRate(old(Snapshot()), id, amount))
      ensures Snapshot() == if started then Model.OpenStream(old(Snapshot()), id, amount) else old(Snapshot())
    {
      var l := lanes[Index(id)];
      var d := Duration(id);
      var total := amount;
      if timestamp < l.periodFinish {
        total := total + Streamed(timestamp, l.periodFinish, l.rate);
      }
      assert total == Folded(Snapshot(), id, amount);
      var rate := MulDiv(total, 1, d);
      if rate == 0 {
        return false;
      }
      lanes[Index(id)] := l.(rate := rate, periodFinish := timestamp + d);
      idleRewards := idleRewards + (total - rate * d);
      return true;
    }

    /** _startPeriod; a caller that sees it fail reverts everything it did. */
    method StartPeriod(id: LaneId, amount: nat) returns (r: Result<Unit, Error>)
      requires lanes.Length == LANES
      modifies `idleRewards, lanes
      ensures match Model.StartPeriod(old(Snapshot()), id, amount)
              case Success(s) => r == Success(Unit) && Snapshot() == s
              case Failure(e) => r == Failure(e)
    {
      var started := OpenStream(id, amount);
      if !started {
        return Failure(RewardTooSmall);
      }
      var unflowed := UnflowedRewards();
      if rewardReserve < unflowed + idleRewards {
        return Failure(Underfunded);
      }
      return Success(Unit);
    }

    method Receive(id: LaneId, amount: nat)
      requires lanes.Length == LANES
      modifies `balance, `rewardReserve, lanes
      ensures Snapshot() == Model.Receive(old(Snapshot()), id, amount)
    {
      balance := balance + amount;
      rewardReserve := rewardReserve + amount;
      lanes[Index(id)] := lanes[Index(id)].(injected := lanes[Index(id)].injected + amount);
    }

    /** _pull and _inject. */
    method Inject(id: LaneId, amount: nat) returns (r: Result<Unit, Error>)
      requires lanes.Length == LANES
      modifies this, lanes
      ensures match Model.Inject(old(Snapshot()), id, amount)
              case Success(s) => r == Success(Unit) && Snapshot() == s
              case Failure(e) => r == Failure(e)
    {
      Receive(id, amount);
      r := StartPeriod(id, amount);
    }

    method NotifyBuyback(fromDistributor: bool, amount: nat) returns (r: Result<Unit, Error>)
      requires lanes.Length == LANES
      modifies this, lanes
      ensures RealizesUnit(Model.NotifyBuyback(old(Snapshot()), fromDistributor, amount),
                           old(Snapshot()), Snapshot(), r)
      ensures old(Valid()) ==>
                && Valid() && accounts == old(accounts)
                && (r.Success? <==> !old(paused) && fromDistributor && MIN_NOTIFY <= amount)
    {
      hide Inv, Model.Earned;
      if Valid() {
        NotifyKeeps(Snapshot(), fromDistributor, amount);
      }
      if paused {
        return Failure(Paused);
      }
      if !fromDistributor {
        return Failure(NotDistributor);
      }
      if amount < MIN_NOTIFY {
        return Failure(BelowMinimum);
      }
      var before := Save();
      Checkpoint();
      r := Inject(Buyback, amount);
      if r.Failure? {
        Revert(before);
      }
    }

    method SeedGenesis(fromOwner: bool, amount: nat) returns (r: Result<Unit, Error>)
      requires lanes.Length == LANES
      modifies this, lanes
      ensures RealizesUnit(Model.SeedGenesis(old(Snapshot()), fromOwner, amount), old(Snapshot()), Snapshot(), r)
      ensures old(Valid()) ==>
                && Valid() && accounts == old(accounts)
                && (r.Success? <==> fromOwner && !old(paused) && !old(genesisSeeded) && MIN_NOTIFY <= amount)
    {
      hide Inv, Model.Earned;
      if Valid() {
        SeedKeeps(Snapshot(), fromOwner, amount);
      }
      if !fromOwner {
        return Failure(NotOwner);
      }
      if paused {
        return Failure(Paused);
      }
      if genesisSeeded {
        return Failure(GenesisSeeded);
      }
      if amount < MIN_NOTIFY {
        return Failure(BelowMinimum);
      }
      var before := Save();
      genesisSeeded := true;
      Checkpoint();
      r := Inject(Genesis, amount);
      if r.Failure? {
        Revert(before);
      }
    }

    method ReallocateIdle(fromOwner: bool) returns (r: Result<Unit, Error>)
      requires lanes.Length == LANES
      modifies this, lanes
      ensures RealizesUnit(Model.ReallocateIdle(old(Snapshot()), fromOwner), old(Snapshot()), Snapshot(), r)
      ensures old(Valid()) ==> Valid() && accounts == old(accounts) && r != Failure(Underfunded)
    {
      hide Inv, Model.Earned;
      if Valid() {
        ReallocateKeeps(Snapshot(), fromOwner);
      }
      if !fromOwner {
        return Failure(NotOwner);
      }
      var before := Save();
      Checkpoint();
      var idle := idleRewards;
      if idle == 0 {
        Revert(before);
        return Failure(Nothing);
      }
      idleRewards := 0;
      r := StartPeriod(Buyback, idle);
      if r.Failure? {
        Revert(before);
      }
    }
  }
}
