/**
 src/stake/SolonStaking.sol: a two-lane reward accumulator whose staking token is also its reward token, so
 principal and rewards share one balance. Each transaction is a function from state to state.
 */
module SolonStakingModel {
  import opened Balances
  import opened FloorMath
  import opened Outcomes

  const ONE: nat := 1_000_000_000_000_000_000
  const MIN_NOTIFY: nat := 1_000 * ONE
  const BUYBACK_DURATION: nat := 604_800
  const GENESIS_DURATION: nat := 2_592_000

  datatype LaneId = Buyback | Genesis

  datatype Lane = Lane(rate: nat, periodFinish: nat, injected: nat)

  /** stakedOf, userRewardPerTokenPaid and rewards of one user. */
  datatype Account = Account(staked: nat, paid: nat, rewards: nat)

  const NO_ACCOUNT := Account(0, 0, 0)

  datatype Error =
    | Paused | Zero | CapExceeded | BadAmount | Nothing | ReserveShort
    | NotOwner | NotDistributor | BelowMinimum | GenesisSeeded | RewardTooSmall | Underfunded
    | Underflow | TransferFailed

  /** Storage, then the chain around it (SOLON `balance`, `now`), then totals an observer keeps. */
  datatype State = State(
    buyback: Lane, genesis: Lane, lastUpdate: nat, rewardPerTokenStored: nat,
    totalStaked: nat, rewardReserve: nat, idleRewards: nat, totalPaid: nat,
    accounts: map<Address, Account>, stakeCap: nat, paused: bool, genesisSeeded: bool,
    balance: nat, now: nat,
    compounded: nat, donated: nat
  )

  function Deploy(stakeCap: nat, now: nat): State {
    State(Lane(0, 0, 0), Lane(0, 0, 0), now, 0, 0, 0, 0, 0, map[], stakeCap, false, false, 0, now, 0, 0)
  }

  // ---- Views ----

  function Duration(id: LaneId): nat {
    if id == Buyback then BUYBACK_DURATION else GENESIS_DURATION
  }

  function LaneOf(s: State, id: LaneId): Lane {
    if id == Buyback then s.buyback else s.genesis
  }

  function WithLane(s: State, id: LaneId, l: Lane): State {
    if id == Buyback then s.(buyback := l) else s.(genesis := l)
  }

  function AccountOf(s: State, who: Address): Account {
    if who in s.accounts then s.accounts[who] else NO_ACCOUNT
  }

  /** `rate` per second from `start` to `end`. */
  function Streamed(start: nat, end: nat, rate: nat): nat {
    if start < end then (end - start) * rate else 0
  }

  /** What a lane streams from `last` until `t`, and what it still has to stream after `t`. */
  function LaneFlow(l: Lane, last: nat, t: nat): nat {
    Streamed(last, Min(t, l.periodFinish), l.rate)
  }

  function LaneUnflowed(l: Lane, t: nat): nat {
    Streamed(t, l.periodFinish, l.rate)
  }

  /** _pendingFlow. */
  function PendingFlow(s: State): nat {
    LaneFlow(s.buyback, s.lastUpdate, s.now) + LaneFlow(s.genesis, s.lastUpdate, s.now)
  }

  /** unflowedRewards, read at any time. */
  function UnflowedAt(s: State, t: nat): nat {
    LaneUnflowed(s.buyback, t) + LaneUnflowed(s.genesis, t)
  }

  function RewardPerToken(s: State): nat {
    if s.totalStaked == 0 then s.rewardPerTokenStored
    else s.rewardPerTokenStored + MulDiv(PendingFlow(s), ONE, s.totalStaked)
  }

  /** earned for an account at an accumulator value; a user is never ahead of the accumulator (see `Inv`). */
  function EarnedAt(a: Account, rewardPerToken: nat): nat {
    MulDiv(a.staked, if a.paid <= rewardPerToken then rewardPerToken - a.paid else 0, ONE) + a.rewards
  }

  function Earned(s: State, who: Address): nat {
    EarnedAt(AccountOf(s, who), RewardPerToken(s))
  }

  // ---- Internal steps ----

  /** _checkpoint(address(0)). */
  function Checkpoint(s: State): State {
    var flow := PendingFlow(s);
    if s.totalStaked == 0 then
      s.(idleRewards := s.idleRewards + flow, lastUpdate := s.now)
    else
      s.(rewardPerTokenStored := RewardPerToken(s), lastUpdate := s.now)
  }

  function Put(s: State, who: Address, a: Account): State {
    s.(accounts := s.accounts[who := a])
  }

  /** _checkpoint(who). */
  function CheckpointFor(s: State, who: Address): Result<State, Error> {
    var c := Checkpoint(s);
    var a := AccountOf(c, who);
    var _ :- Require(a.paid <= c.rewardPerTokenStored, Underflow);
    Success(Put(c, who, a.(rewards := EarnedAt(a, c.rewardPerTokenStored), paid := c.rewardPerTokenStored)))
  }

  /** _pay; returns what was paid. */
  function Pay(s: State, who: Address): Result<(State, nat), Error> {
    var a := AccountOf(s, who);
    var pay := Min(a.rewards, s.rewardReserve);
    if pay == 0 then Success((s, 0))
    else
      var _ :- Require(pay <= s.balance, TransferFailed);
      Success((Put(s, who, a.(rewards := a.rewards - pay)).(
        rewardReserve := s.rewardReserve - pay, totalPaid := s.totalPaid + pay, balance := s.balance - pay), pay))
  }

  /** The running period's leftover folded into a new amount, and the rate it is restretched to. */
  function Folded(s: State, id: LaneId, amount: nat): nat {
    amount + LaneUnflowed(LaneOf(s, id), s.now)
  }

  function NewRate(s: State, id: LaneId, amount: nat): nat {
    MulDiv(Folded(s, id, amount), 1, Duration(id))
  }

  /** The new stream, with the truncation remainder moved to the idle bucket. */
  function OpenStream(s: State, id: LaneId, amount: nat): State {
    var rate := NewRate(s, id, amount);
    WithLane(s, id, LaneOf(s, id).(rate := rate, periodFinish := s.now + Duration(id))).(
      idleRewards := s.idleRewards + (Folded(s, id, amount) - rate * Duration(id)))
  }

  /** _startPeriod. */
  function StartPeriod(s: State, id: LaneId, amount: nat): Result<State, Error> {
    var _ :- Require(0 < NewRate(s, id, amount), RewardTooSmall);
    var t := OpenStream(s, id, amount);
    var _ :- Require(UnflowedAt(t, s.now) + t.idleRewards <= t.rewardReserve, Underfunded);
    Success(t)
  }

  /** _pull: `amount` arrives for a lane. */
  function Receive(s: State, id: LaneId, amount: nat): State {
    var l := LaneOf(s, id);
    WithLane(s, id, l.(injected := l.injected + amount)).(
      rewardReserve := s.rewardReserve + amount, balance := s.balance + amount)
  }

  /** _pull and _inject: `amount` arrives and starts streaming. */
  function Inject(s: State, id: LaneId, amount: nat): Result<State, Error> {
    StartPeriod(Receive(s, id, amount), id, amount)
  }

  // ---- Transactions ----

  function Stake(s: State, who: Address, amount: nat): Result<State, Error> {
    var _ :- Require(!s.paused, Paused);
    var c :- CheckpointFor(s, who);
    var _ :- Require(0 < amount, Zero);
    var _ :- Require(c.totalStaked + amount <= c.stakeCap, CapExceeded);
    var a := AccountOf(c, who);
    Success(Put(c, who, a.(staked := a.staked + amount)).(
      totalStaked := c.totalStaked + amount, balance := c.balance + amount))
  }

  /** How far the isolated reward leg of `unstake` got. */
  datatype Leg = Settled | Unpaid | Skipped

  function RewardLeg(s: State, who: Address, leg: Leg): (State, nat) {
    var c := CheckpointFor(s, who);
    if leg == Skipped || c.Failure? then (s, 0)
    else
      var p := Pay(c.value, who);
      if leg == Unpaid || p.Failure? then (c.value, 0) else p.value
  }

  /** unstake; returns the reward paid next to the principal. */
  function Unstake(s: State, who: Address, amount: nat, leg: Leg): Result<(State, nat), Error> {
    var staked := AccountOf(s, who).staked;
    var _ :- Require(0 < amount <= staked, BadAmount);
    var (t, paid) := RewardLeg(s, who, leg);
    var _ :- Require(amount <= t.totalStaked, Underflow);
    var _ :- Require(amount <= t.balance, TransferFailed);
    Success((Put(t, who, AccountOf(t, who).(staked := staked - amount)).(
      totalStaked := t.totalStaked - amount, balance := t.balance - amount), paid))
  }

  function Claim(s: State, who: Address): Result<(State, nat), Error> {
    var c :- CheckpointFor(s, who);
    Pay(c, who)
  }

  function Compound(s: State, who: Address): Result<State, Error> {
    var _ :- Require(!s.paused, Paused);
    var c :- CheckpointFor(s, who);
    var a := AccountOf(c, who);
    var r := a.rewards;
    var _ :- Require(0 < r, Nothing);
    var _ :- Require(r <= c.rewardReserve, ReserveShort);
    var _ :- Require(c.totalStaked + r <= c.stakeCap, CapExceeded);
    Success(Put(c, who, a.(rewards := 0, staked := a.staked + r)).(
      rewardReserve := c.rewardReserve - r, totalStaked := c.totalStaked + r, compounded := c.compounded + r))
  }

  function NotifyBuyback(s: State, fromDistributor: bool, amount: nat): Result<State, Error> {
    var _ :- Require(!s.paused, Paused);
    var _ :- Require(fromDistributor, NotDistributor);
    var _ :- Require(MIN_NOTIFY <= amount, BelowMinimum);
    Inject(Checkpoint(s), Buyback, amount)
  }

  function SeedGenesis(s: State, fromOwner: bool, amount: nat): Result<State, Error> {
    var _ :- Require(fromOwner, NotOwner);
    var _ :- Require(!s.paused, Paused);
    var _ :- Require(!s.genesisSeeded, GenesisSeeded);
    var _ :- Require(MIN_NOTIFY <= amount, BelowMinimum);
    Inject(Checkpoint(s.(genesisSeeded := true)), Genesis, amount)
  }

  function ReallocateIdle(s: State, fromOwner: bool): Result<State, Error> {
    var _ :- Require(fromOwner, NotOwner);
    var c := Checkpoint(s);
    var idle := c.idleRewards;
    var _ :- Require(0 < idle, Nothing);
    StartPeriod(c.(idleRewards := 0), Buyback, idle)
  }

  /** Everything that can happen, time and direct transfers included. */
  datatype Op =
    | OpStake(who: Address, amount: nat)
    | OpUnstake(who: Address, amount: nat, leg: Leg)
    | OpClaim(who: Address)
    | OpCompound(who: Address)
    | OpNotifyBuyback(fromDistributor: bool, amount: nat)
    | OpSeedGenesis(fromOwner: bool, amount: nat)
    | OpReallocateIdle(fromOwner: bool)
    | OpSetStakeCap(cap: nat)
    | OpSetPaused(paused: bool)
    | OpWait(seconds: nat)
    | OpDonate(amount: nat)

  function Attempt(s: State, op: Op): Result<State, Error> {
    match op
    case OpStake(who, amount) => Stake(s, who, amount)
    case OpUnstake(who, amount, leg) =>
      var r :- Unstake(s, who, amount, leg); Success(r.0)
    case OpClaim(who) =>
      var r :- Claim(s, who); Success(r.0)
    case OpCompound(who) => Compound(s, who)
    case OpNotifyBuyback(fromDistributor, amount) => NotifyBuyback(s, fromDistributor, amount)
    case OpSeedGenesis(fromOwner, amount) => SeedGenesis(s, fromOwner, amount)
    case OpReallocateIdle(fromOwner) => ReallocateIdle(s, fromOwner)
    case OpSetStakeCap(cap) => Success(s.(stakeCap := cap))
    case OpSetPaused(paused) => Success(s.(paused := paused))
    case OpWait(seconds) => Success(s.(now := s.now + seconds))
    case OpDonate(amount) => Success(s.(balance := s.balance + amount, donated := s.donated + amount))
  }

  function Step(s: State, op: Op): State {
    var r := Attempt(s, op);
    if r.Success? then r.value else s
  }

  function Run(s: State, ops: seq<Op>): State
    decreases |ops|
  {
    if ops == [] then s else Run(Step(s, ops[0]), ops[1..])
  }
}
