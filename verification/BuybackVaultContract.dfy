/** src/v2/PonsV2BuybackVault.sol: one deployment holding every launch's vest, proved launch by launch. */
module BuybackVaultContract {
  import opened Balances
  import opened FloorMath
  import opened Outcomes
  import opened Model = BuybackVaultModel
  import opened BuybackVaultRuns

  class PonsV2BuybackVault {
    var vaults: map<Address, Vest>
    // The chain around the contract: its balance of each launch token, and the block timestamp.
    var held: map<Address, nat>
    var timestamp: nat
    // What each side has been credited so far.
    ghost var credited: map<Address, Payment>

    ghost function Book(token: Address): State
      reads this
    {
      var paid := if token in credited then credited[token] else Payment(0, 0);
      State(VestOf(token), HeldOf(token), timestamp, paid.toCreator, paid.toProtocol)
    }

    function VestOf(token: Address): Vest
      reads this
    {
      if token in vaults then vaults[token] else NO_VEST
    }

    function HeldOf(token: Address): nat
      reads this
    {
      if token in held then held[token] else 0
    }

    /** Every launch's books satisfy the run invariant. */
    ghost predicate Valid()
      reads this
    {
      forall token: Address :: Inv(Book(token))
    }

    constructor (timestamp: nat)
      requires VESTING_DURATION <= timestamp
      ensures Valid()
      ensures this.timestamp == timestamp
      ensures forall token :: Book(token) == State(NO_VEST, 0, timestamp, 0, 0)
    {
      vaults, held, credited := map[], map[], map[];
      this.timestamp := timestamp;
    }

    method Checkpoint(v: Vest) returns (w: Vest)
      ensures w == Model.Checkpoint(v, timestamp)
    {
      w := v;
      var newlyVested := NewlyVested(w, timestamp);
      if newlyVested != 0 {
        w := w.(unvestedAmount := w.unvestedAmount - newlyVested);
        w := w.(vestedUnreleased := w.vestedUnreleased + newlyVested);
      }
      w := w.(lastUpdate := timestamp);
    }

    method Deposit(v: Vest, amount: nat) returns (r: Result<Vest, Error>)
      requires 0 < amount
      ensures r == Model.Deposit(v, timestamp, amount)
    {
      var existingUnvested := v.unvestedAmount;
      var combinedAmount := existingUnvested + amount;
      if existingUnvested != 0 && v.vestingEnd < timestamp {
        return Failure(Underflow);
      }
      var remainingDuration := if existingUnvested == 0 then 0 else v.vestingEnd - timestamp;
      var combinedDuration := CombinedDuration(existingUnvested, remainingDuration, amount);
      if VESTING_DURATION < combinedDuration || timestamp < VESTING_DURATION - combinedDuration {
        return Failure(Underflow);
      }
      return Success(v.(unvestedAmount := combinedAmount,
                        lastUpdate := timestamp,
                        vestingEnd := timestamp + combinedDuration,
                        vestingStart := timestamp - (VESTING_DURATION - combinedDuration),
                        totalLocked := v.totalLocked + amount));
    }

    method Lock(token: Address, authorized: bool, amount: nat, received: nat, terms: Terms)
      returns (r: Result<Unit, Error>)
      modifies `vaults, `held
      ensures RealizesUnit(Model.Lock(old(Book(token)), authorized, amount, received, terms),
                           old(Book(token)), Book(token), r)
      ensures forall t :: t != token ==> Book(t) == old(Book(t))
      ensures old(Valid()) ==>
                && Valid() && r != Failure(Underflow)
                && VestedAmount(VestOf(token), timestamp) == old(VestedAmount(VestOf(token), timestamp))
                && (r.Success? && amount != 0 ==>
                      VestOf(token).totalLocked == old(VestOf(token)).totalLocked + received)
    {
      hide Inv, VestedAmount, SetOrValidateTerms, Model.Checkpoint, Model.Deposit;
      if old(Valid()) {
        LockAdds(old(Book(token)), authorized, amount, received, terms);
      }
      if !authorized {
        return Failure(NotAuthorizedLocker);
      }
      if amount == 0 {
        return Success(Unit);
      }
      if terms.creator == NOBODY || terms.protocol == NOBODY || BPS < terms.shareBps {
        return Failure(InvalidVestingTerms);
      }
      if received == 0 {
        return Success(Unit);
      }
      var v := Checkpoint(VestOf(token));
      var agreed := SetOrValidateTerms(v, terms);
      if agreed.Failure? {
        return Failure(agreed.error);
      }
      var scheduled := Deposit(agreed.value, received);
      if scheduled.Failure? {
        return Failure(scheduled.error);
      }
      vaults := vaults[token := scheduled.value];
      held := held[token := HeldOf(token) + received];
      return Success(Unit);
    }

    method Release(token: Address, caller: Address) returns (r: Result<Payment, Error>)
      modifies `vaults, `held, `credited
      ensures Realizes(Model.Release(old(Book(token)), caller), old(Book(token)), Book(token), r)
      ensures forall t :: t != token ==> Book(t) == old(Book(t))
      ensures old(Valid()) ==>
                && Valid()
                && (r.Success? <==>
                      caller == old(VestOf(token)).creatorRecipient || caller == old(VestOf(token)).protocolRecipient)
                && (r.Success? ==>
                      && r.value.toCreator + r.value.toProtocol
                         == old(VestedAmount(VestOf(token), timestamp) - VestOf(token).totalReleased)
                      && old(HeldOf(token)) - HeldOf(token) == r.value.toCreator + r.value.toProtocol
                      && IsFloor(r.value.toProtocol, (r.value.toCreator + r.value.toProtocol)
                                                     * old(VestOf(token)).protocolFeeShareBps, BPS)
                      && VestedAmount(VestOf(token), timestamp) == VestOf(token).totalReleased)
    {
      hide Inv, VestedAmount, Model.Checkpoint, IsFloor;
      if old(Valid()) {
        ReleasePays(old(Book(token)), caller);
      }
      var v := VestOf(token);
      if caller != v.creatorRecipient && caller != v.protocolRecipient {
        return Failure(NotVestBeneficiary);
      }
      v := Checkpoint(v);
      var released := v.vestedUnreleased;
      if released == 0 {
        Store(token, v);
        return Success(Payment(0, 0));
      }
      var protocolAmount := MulDiv(released, v.protocolFeeShareBps, BPS);
      if released < protocolAmount || HeldOf(token) < released {
        return Failure(Underflow);
      }
      var payment := Payment(released - protocolAmount, protocolAmount);
      Credit(token, v.(vestedUnreleased := 0, totalReleased := v.totalReleased + released), payment);
      return Success(payment);
    }

    method Store(token: Address, v: Vest)
      modifies `vaults
      ensures Book(token) == old(Book(token)).(vest := v)
      ensures forall t :: t != token ==> Book(t) == old(Book(t))
    {
      vaults := vaults[token := v];
    }

    /** Books a release; the vested tokens leave for the fee escrow, credited to the two recipients. */
    method Credit(token: Address, settled: Vest, payment: Payment)
      requires payment.toCreator + payment.toProtocol <= HeldOf(token)
      modifies `vaults, `held, `credited
      ensures var before := old(Book(token));
              Book(token) == before.(vest := settled,
                                     held := before.held - (payment.toCreator + payment.toProtocol),
                                     toCreator := before.toCreator + payment.toCreator,
                                     toProtocol := before.toProtocol + payment.toProtocol)
      ensures forall t :: t != token ==> Book(t) == old(Book(t))
    {
      ghost var before := Book(token);
      Store(token, settled);
      held := held[token := HeldOf(token) - (payment.toCreator + payment.toProtocol)];
      credited := credited[token := Payment(before.toCreator + payment.toCreator,
                                            before.toProtocol + payment.toProtocol)];
    }

    method UpdateCreatorRecipient(token: Address, fromFactory: bool, newRecipient: Address)
      returns (r: Result<Unit, Error>)
      modifies `vaults
      ensures RealizesUnit(Model.UpdateCreatorRecipient(old(Book(token)), fromFactory, newRecipient),
                           old(Book(token)), Book(token), r)
      ensures forall t :: t != token ==> Book(t) == old(Book(t))
      ensures r.Success? <==> fromFactory && newRecipient != NOBODY
      ensures r.Success? ==> VestOf(token) == old(VestOf(token)).(creatorRecipient := newRecipient)
      ensures old(Valid()) ==> Valid()
    {
      if old(Valid()) {
        StepKeeps(old(Book(token)), OpUpdateCreator(fromFactory, newRecipient));
      }
      if !fromFactory {
        return Failure(NotFactory);
      }
      if newRecipient == NOBODY {
        return Failure(ZeroAddress);
      }
      Store(token, VestOf(token).(creatorRecipient := newRecipient));
      return Success(Unit);
    }
  }
}
