/**
 src/v2/PonsV2BuybackVault.sol: one launch's buyback vest. Deposits share one weighted-average clock, and every
 release floors what has vested since the previous update. Times are seconds, `now` the block timestamp.
 */
module BuybackVaultModel {
  import opened Balances
  import opened FloorMath
  import opened Outcomes

  const NOBODY: Address := 0
  const VESTING_DURATION: nat := 157_680_000

  datatype Error =
    | NotAuthorizedLocker | InvalidVestingTerms | VestingTermsMismatch | NotVestBeneficiary
    | NotFactory | ZeroAddress | Underflow

  datatype Vest = Vest(
    totalLocked: nat, totalReleased: nat, vestingStart: nat, vestedUnreleased: nat,
    unvestedAmount: nat, lastUpdate: nat, vestingEnd: nat,
    creatorRecipient: Address, protocolRecipient: Address, protocolFeeShareBps: nat
  )

  const NO_VEST := Vest(0, 0, 0, 0, 0, 0, 0, NOBODY, NOBODY, 0)

  /** _previewNewlyVested. */
  function NewlyVested(v: Vest, now: nat): (n: nat)
    ensures n <= v.unvestedAmount
  {
    if v.unvestedAmount == 0 || now <= v.lastUpdate then 0
    else if v.vestingEnd <= now then v.unvestedAmount
    else
      ShareOfWhole(v.unvestedAmount, now - v.lastUpdate, v.vestingEnd - v.lastUpdate);
      MulDiv(v.unvestedAmount, now - v.lastUpdate, v.vestingEnd - v.lastUpdate)
  }

  /** _vestedAmount. */
  function VestedAmount(v: Vest, now: nat): nat {
    v.totalReleased + v.vestedUnreleased + NewlyVested(v, now)
  }

  /** What has not vested by `now`. */
  function Outstanding(v: Vest, now: nat): nat {
    v.unvestedAmount - NewlyVested(v, now)
  }

  /** _checkpoint. */
  function Checkpoint(v: Vest, now: nat): Vest {
    v.(unvestedAmount := Outstanding(v, now),
       vestedUnreleased := v.vestedUnreleased + NewlyVested(v, now),
       lastUpdate := now)
  }

  datatype Terms = Terms(creator: Address, protocol: Address, shareBps: nat)

  function EpochOpen(v: Vest): bool {
    v.unvestedAmount != 0 || v.vestedUnreleased != 0
  }

  /** _setOrValidateVestingTerms. */
  function SetOrValidateTerms(v: Vest, terms: Terms): Result<Vest, Error> {
    if !EpochOpen(v) then
      Success(v.(creatorRecipient := if v.creatorRecipient == NOBODY then terms.creator else v.creatorRecipient,
                 protocolRecipient := terms.protocol,
                 protocolFeeShareBps := terms.shareBps))
    else
      var _ :- Require(v.protocolRecipient == terms.protocol && v.protocolFeeShareBps == terms.shareBps,
                       VestingTermsMismatch);
      Success(v)
  }

  /** The size-weighted average of what is left of the old schedule and a full new one. */
  function CombinedDuration(unvested: nat, remaining: nat, amount: nat): nat
    requires 0 < amount
  {
    MulDiv(unvested * remaining + amount * VESTING_DURATION, 1, unvested + amount)
  }

  /** Schedules `amount` newly arrived tokens into a checkpointed vest. */
  function Deposit(v: Vest, now: nat, amount: nat): Result<Vest, Error>
    requires 0 < amount
  {
    var _ :- Require(v.unvestedAmount == 0 || now <= v.vestingEnd, Underflow);
    var remaining := if v.unvestedAmount == 0 then 0 else v.vestingEnd - now;
    var duration := CombinedDuration(v.unvestedAmount, remaining, amount);
    var _ :- Require(duration <= VESTING_DURATION && VESTING_DURATION - duration <= now, Underflow);
    Success(v.(unvestedAmount := v.unvestedAmount + amount, lastUpdate := now,
               vestingEnd := now + duration, vestingStart := now - (VESTING_DURATION - duration),
               totalLocked := v.totalLocked + amount))
  }

  /** lock: `received` is what the transfer of `amount` delivered. */
  function LockVest(v: Vest, now: nat, authorized: bool, amount: nat, received: nat, terms: Terms)
    : Result<Vest, Error>
  {
    var _ :- Require(authorized, NotAuthorizedLocker);
    if amount == 0 then Success(v)
    else
      var _ :- Require(terms.creator != NOBODY && terms.protocol != NOBODY && terms.shareBps <= BPS,
                       InvalidVestingTerms);
      if received == 0 then Success(v)
      else
        var agreed :- SetOrValidateTerms(Checkpoint(v, now), terms);
        Deposit(agreed, now, received)
  }

  /** A release: what goes to each party. */
  datatype Payment = Payment(toCreator: nat, toProtocol: nat)

  function SplitRelease(v: Vest, released: nat): Payment
  {
    var toProtocol := MulDiv(released, v.protocolFeeShareBps, BPS);
    Payment(if toProtocol <= released then released - toProtocol else 0, toProtocol)
  }

  /** release. */
  function ReleaseVest(v: Vest, now: nat, caller: Address): Result<(Vest, Payment), Error> {
    var _ :- Require(caller == v.creatorRecipient || caller == v.protocolRecipient, NotVestBeneficiary);
    var settled := Checkpoint(v, now);
    var released := settled.vestedUnreleased;
    if released == 0 then Success((settled, Payment(0, 0)))
    else
      var payment := SplitRelease(settled, released);
      var _ :- Require(payment.toProtocol <= released, Underflow);
      Success((settled.(vestedUnreleased := 0, totalReleased := settled.totalReleased + released), payment))
  }

  // ---- A launch's vest over time ----

  /** The vest, the tokens the vault holds for it, the clock, and what each side has been credited so far. */
  datatype State = State(vest: Vest, held: nat, now: nat, toCreator: nat, toProtocol: nat)

  datatype Op =
    | OpLock(authorized: bool, amount: nat, received: nat, terms: Terms)
    | OpRelease(caller: Address)
    | OpUpdateCreator(fromFactory: bool, newRecipient: Address)
    | OpWait(seconds: nat)
    | OpDonate(amount: nat)

  function Lock(s: State, authorized: bool, amount: nat, received: nat, terms: Terms): Result<State, Error> {
    var v :- LockVest(s.vest, s.now, authorized, amount, received, terms);
    Success(s.(vest := v, held := s.held + (if amount == 0 then 0 else received)))
  }

  function Release(s: State, caller: Address): Result<(State, Payment), Error> {
    var r :- ReleaseVest(s.vest, s.now, caller);
    var (v, payment) := r;
    var out := payment.toCreator + payment.toProtocol;
    var _ :- Require(out <= s.held, Underflow);
    Success((s.(vest := v, held := s.held - out, toCreator := s.toCreator + payment.toCreator,
                toProtocol := s.toProtocol + payment.toProtocol), payment))
  }

  function UpdateCreatorRecipient(s: State, fromFactory: bool, newRecipient: Address): Result<State, Error> {
    var _ :- Require(fromFactory, NotFactory);
    var _ :- Require(newRecipient != NOBODY, ZeroAddress);
    Success(s.(vest := s.vest.(creatorRecipient := newRecipient)))
  }

  function Attempt(s: State, op: Op): Result<State, Error> {
    match op
    case OpLock(authorized, amount, received, terms) => Lock(s, authorized, amount, received, terms)
    case OpRelease(caller) =>
      var r :- Release(s, caller); Success(r.0)
    case OpUpdateCreator(fromFactory, newRecipient) => UpdateCreatorRecipient(s, fromFactory, newRecipient)
    case OpWait(seconds) => Success(s.(now := s.now + seconds))
    case OpDonate(amount) => Success(s.(held := s.held + amount))
  }

  function Step(s: State, op: Op): State {
    var r := Attempt(s, op);
    if r.Success? then r.value else s
  }

  function Run(s: State, ops: seq<Op>): State
    decreases |ops|
  {
    if ops == [] then s else Run(Step(s, ops[0]), ops[1..])
  }
}
