/** src/v3/DeskRewards.sol method by method; proved against DeskRewardsModel and the eager ledger behind it. */
module DeskRewardsContract {
  import opened Balances
  import opened FloorMath
  import opened Outcomes
  import opened L = DeskLedgerModel
  import opened DeskLedgerRuns
  import opened Model = DeskRewardsModel
  import Runs = DeskRewardsRuns
  import N = DeskNFTModel
  import C = DeskNFTContract

  /** Generations grow strictly, as the binary search needs. */
  predicate Sorted(gs: seq<Generation>) {
    forall i, j :: 0 <= i < j < |gs| ==> gs[i].upperId < gs[j].upperId
  }

  /** The search of `credit27`: the first generation that reaches `id`. */
  method Search(gs: seq<Generation>, id: nat) returns (low: nat)
    requires Sorted(gs)
    ensures low <= |gs|
    ensures forall j :: 0 <= j < low ==> gs[j].upperId < id
    ensures forall j :: low <= j < |gs| ==> id <= gs[j].upperId
  {
    low := 0;
    var high := |gs|;
    while low < high
      invariant low <= high <= |gs|
      invariant forall j :: 0 <= j < low ==> gs[j].upperId < id
      invariant forall j :: high <= j < |gs| ==> id <= gs[j].upperId
    {
      var mid := (low + high) / 2;
      if gs[mid].upperId < id {
        low := mid + 1;
      } else {
        high := mid;
      }
    }
  }

  class DeskRewards {
    const nft: C.DeskNFT
    const royaltyAssets: set<Address>
    // streams, generations, nextEpochRemainder, latestStream and all else keyed by a stream, gathered by base.
    var books: map<Base, Book>
    var rawCustody: map<Address, nat>
    var purchasedOutstanding: map<Address, nat>
    var purchasedSpent: map<Address, nat>
    var protocolStaking: bool
    // The chain around the contract.
    var held: map<Address, nat>
    var ready: map<Address, nat>
    var paidTotal: map<Address, nat>
    var timestamp: nat

    ghost function Snapshot(): State
      reads this, nft
    {
      State(nft.Snapshot(), books, rawCustody, purchasedOutstanding, purchasedSpent, royaltyAssets, protocolStaking,
            held, ready, paidTotal, timestamp)
    }

    ghost predicate Valid()
      reads this, nft
    {
      Runs.Inv(Snapshot())
    }

    constructor (nft: C.DeskNFT, royaltyAssets: set<Address>, timestamp: nat)
      requires nft.Snapshot() == N.Deployed() && NATIVE !in royaltyAssets
      ensures this.nft == nft && Snapshot() == Deployed(royaltyAssets, timestamp) && Valid()
    {
      this.nft, this.royaltyAssets, this.timestamp := nft, royaltyAssets, timestamp;
      books, rawCustody, purchasedOutstanding, purchasedSpent, protocolStaking := map[], map[], map[], map[], false;
      held, ready, paidTotal := map[], map[], map[];
      new;
      Runs.ReachableInv(royaltyAssets, timestamp, []);
    }

    function BookOf(base: Base): Book
      reads this
    {
      if base in books then books[base] else NewBook(base)
    }

    function StreamOf(key: Key): Stream
      reads this
    {
      StreamAt(BookOf(key.base), key.epoch)
    }

    /** credit27 of a card in a stream, by binary search. */
    method Credit27(id: nat, key: Key) returns (credit: nat)
      requires Valid() && 0 < id
      ensures credit == L.Credit27(StreamOf(key), id)
      ensures var log := BookOf(key.base).log;
              Countable(log) && credit == EagerShare(EagerOf(log), key.epoch, id)
    {
      hide Runs.Inv, EagerOf, EagerShare, L.Credit27;
      Runs.StreamIsShaped(Snapshot(), key);
      Runs.StreamIsEager(Snapshot(), key, id);
      assert StreamOf(key) == Model.StreamOf(Snapshot(), key);
      var st := StreamOf(key);
      var low := Search(st.generations, id);
      SearchFinds(st, id, low);
      if low == |st.generations| {
        return 0;
      }
      return st.counter - st.generations[low].initialCounter;
    }

    // ---- Fees in ----

    /** The start of `_credit`: a new day collects what the last one could not divide. */
    method RollOver(b0: Book, epoch: nat) returns (b: Book, rolled27: nat)
      ensures (b, rolled27) == Roll(b0, epoch)
    {
      b, rolled27 := b0, 0;
      if b.latest.Epoch? && b.latest.day != epoch {
        var last := StreamAt(b, b.latest.day);
        var carryKey := b.latest.day + 1;
        rolled27 := last.rem + Amount(b.nextEpochRemainder, carryKey);
        b := b.(streams := b.streams[b.latest.day := last.(rem := 0)]);
        b := b.(nextEpochRemainder := b.nextEpochRemainder - {carryKey});
      }
    }

    /** A changed card count parks the remainder for the next day and opens a generation. */
    method OpenGeneration(b0: Book, epoch: nat, n: nat) returns (b: Book)
      ensures b == Regenerate(b0, epoch, n)
    {
      b := b0;
      var st := StreamAt(b, epoch);
      if st.supply != n {
        if st.rem != 0 {
          b := b.(nextEpochRemainder :=
            b.nextEpochRemainder[epoch + 1 := Amount(b.nextEpochRemainder, epoch + 1) + st.rem]);
          st := st.(rem := 0);
        }
        st := st.(generations := st.generations + [Generation(n, st.counter)]);
        st := st.(supply := n);
      }
      b := b.(streams := b.streams[epoch := st]);
    }

    /** The division, and what each side is credited. */
    method Distribute(st0: Stream, amount: nat, rolled27: nat, n: nat, np: nat) returns (st: Stream)
      requires 0 < n && np <= n
      ensures st == Distribute27(st0, amount, rolled27, n, np)
    {
      st := st0;
      var numerator := amount * PRECISION + st.rem + rolled27;
      DivBounds(numerator, n);
      var q := numerator / n;
      st := st.(rem := numerator % n);
      st := st.(counter := st.counter + q);
      st := st.(totalCredit27 := st.totalCredit27 + q * (n - np));
      st := st.(received := st.received + amount);
      if np != 0 {
        st := st.(delegatedCredit27 := st.delegatedCredit27 + q * np);
      }
    }

    /** _credit. */
    method CreditFee(base: Base, amount: nat) returns (r: Result<Unit, Error>)
      modifies `books
      ensures RealizesUnit(Model.CreditFee(old(Snapshot()), base, amount), old(Snapshot()), Snapshot(), r)
    {
      hide Roll, Regenerate, Distribute27;
      if amount == 0 {
        return Success(Unit);
      }
      var n, np := nft.TotalSupply(), nft.protocolMinted;
      if n == 0 {
        return Failure(FirstDeskRequired);
      }
      if n < np {
        return Failure(Underflow);
      }
      if np != 0 && !protocolStaking {
        return Failure(ProtocolStakingMissing);
      }
      var epoch := timestamp / DAY;
      var b, rolled27 := RollOver(BookOf(base).(base := base), epoch);
      b := OpenGeneration(b, epoch, n);
      var st := Distribute(StreamAt(b, epoch), amount, rolled27, n, np);
      b := Record(b, Fee(epoch, n, amount), st);
      books := books[b.base := b];
      return Success(Unit);
    }

    method OnFeeCredit(base: Base, amount: nat) returns (r: Result<Unit, Error>)
      modifies `books
      ensures RealizesUnit(Model.OnFeeCredit(old(Snapshot()), base, amount), old(Snapshot()), Snapshot(), r)
      ensures old(Valid()) ==> Valid()
    {
      hide Runs.Inv, Model.CreditFee;
      if Valid() { Runs.OnFeeCreditKeeps(Snapshot(), base, amount); }
      if !base.source.Pool? {
        return Failure(LedgerOnly);
      }
      var before := books;
      var b := BookOf(base);
      books := books[base := b.(base := base, due := b.due + amount)];
      r := CreditFee(base, amount);
      if r.Failure? {
        books := before;
      }
    }

    /** recordMintSurcharge and receive: native fees. */
    method ReceiveNative(source: Source, amount: nat) returns (r: Result<Unit, Error>)
      modifies `books, `rawCustody
      ensures RealizesUnit(Model.ReceiveNative(old(Snapshot()), source, amount), old(Snapshot()), Snapshot(), r)
      ensures old(Valid()) ==> Valid()
    {
      hide Runs.Inv, Model.CreditFee;
      if Valid() { Runs.ReceiveNativeKeeps(Snapshot(), source, amount); }
      var before := rawCustody;
      rawCustody := Plus(rawCustody, NATIVE, amount);
      r := CreditFee(Base(source, NATIVE), amount);
      if r.Failure? {
        rawCustody := before;
      }
    }

    method DepositRoyalty(asset: Address, raw: nat) returns (r: Result<Unit, Error>)
      modifies `books, `rawCustody, `held
      ensures RealizesUnit(Model.DepositRoyalty(old(Snapshot()), asset, raw), old(Snapshot()), Snapshot(), r)
      ensures old(Valid()) ==> Valid()
    {
      hide Runs.Inv, Model.CreditFee;
      if Valid() { Runs.DepositRoyaltyKeeps(Snapshot(), asset, raw); }
      if asset !in royaltyAssets || raw == 0 {
        return Failure(StockRoyaltyAsset);
      }
      var custody, balance := rawCustody, held;
      held := Plus(held, asset, raw);
      rawCustody := Plus(rawCustody, asset, raw);
      r := CreditFee(Base(Royalty, asset), raw);
      if r.Failure? {
        rawCustody, held := custody, balance;
      }
    }

    /** Neither of the two subtractions can fail. */
    method SyncRoyalty(asset: Address) returns (r: Result<Unit, Error>)
      modifies `books, `rawCustody
      ensures RealizesUnit(Model.SyncRoyalty(old(Snapshot()), asset), old(Snapshot()), Snapshot(), r)
      ensures old(Valid()) ==> Valid() && r != Failure(Underflow)
    {
      hide Runs.Inv, Model.CreditFee;
      if Valid() { Runs.SyncRoyaltyKeeps(Snapshot(), asset); }
      if asset !in royaltyAssets {
        return Failure(StockRoyaltyAsset);
      }
      if Amount(paidTotal, asset) < Amount(purchasedSpent, asset) {
        return Failure(Underflow);
      }
      var purchased := Amount(paidTotal, asset) - Amount(purchasedSpent, asset);
      if Amount(held, asset) < Amount(rawCustody, asset) + purchased {
        return Failure(Underflow);
      }
      var raw := Amount(held, asset) - Amount(rawCustody, asset) - purchased;
      var before := rawCustody;
      rawCustody := Plus(rawCustody, asset, raw);
      r := CreditFee(Base(Royalty, asset), raw);
      if r.Failure? {
        rawCustody := before;
      }
    }

    // ---- Payouts ----

    /** _pull. */
    method Pull(base: Base)
      modifies `books, `rawCustody, `held
      ensures Snapshot() == Model.Pull(old(Snapshot()), base)
    {
      var b := BookOf(base);
      if b.due == 0 {
        return;
      }
      var due := b.due;
      books := books[base := b.(base := base, due := 0)];
      if base.IsRaw() {
        held := Plus(held, base.asset, due);
      }
      rawCustody := Plus(rawCustody, base.asset, due);
    }

    method DeliverRaw(asset: Address, amount: nat) returns (r: Result<Unit, Error>)
      modifies `rawCustody, `held
      ensures RealizesUnit(Model.DeliverRaw(old(Snapshot()), asset, amount), old(Snapshot()), Snapshot(), r)
    {
      if Amount(rawCustody, asset) < amount || Amount(held, asset) < amount {
        return Failure(Underflow);
      }
      rawCustody := rawCustody[asset := Amount(rawCustody, asset) - amount];
      held := held[asset := Amount(held, asset) - amount];
      return Success(Unit);
    }

    method DeliverStock(asset: Address, amount: nat) returns (r: Result<Unit, Error>)
      modifies `purchasedOutstanding, `purchasedSpent, `held
      ensures RealizesUnit(Model.DeliverStock(old(Snapshot()), asset, amount), old(Snapshot()), Snapshot(), r)
    {
      if Amount(purchasedOutstanding, asset) < amount || Amount(held, asset) < amount {
        return Failure(Underflow);
      }
      purchasedOutstanding := purchasedOutstanding[asset := Amount(purchasedOutstanding, asset) - amount];
      purchasedSpent := Plus(purchasedSpent, asset, amount);
      held := held[asset := Amount(held, asset) - amount];
      return Success(Unit);
    }

    method SendNative(amount: nat) returns (r: Result<Unit, Error>)
      modifies `rawCustody
      ensures RealizesUnit(Model.SendNative(old(Snapshot()), amount), old(Snapshot()), Snapshot(), r)
    {
      if Amount(rawCustody, NATIVE) < amount {
        return Failure(Underflow);
      }
      rawCustody := rawCustody[NATIVE := Amount(rawCustody, NATIVE) - amount];
      return Success(Unit);
    }

    /** claimable. */
    method Claimable(id: nat, key: Key) returns (r: Result<nat, Error>)
      requires Valid() && 0 < id
      ensures r == Model.Claimable(StreamOf(key), key.base.IsRaw(), id)
    {
      hide Runs.Inv, EagerOf, EagerShare, L.Credit27;
      var st := StreamOf(key);
      var credit := Credit27(id, key);
      var owed := 0;
      if key.base.IsRaw() {
        DivBounds(credit, PRECISION);
        owed := credit / PRECISION;
      } else if st.totalCredit27 != 0 {
        owed := MulDiv(credit, st.purchasedRaw, st.totalCredit27);
      }
      if owed < Amount(st.paidRaw, id) {
        return Failure(Underflow);
      }
      return Success(owed - Amount(st.paidRaw, id));
    }

    method WriteStream(key: Key, st: Stream)
      modifies `books
      ensures Snapshot() == WithBook(old(Snapshot()),
                                     WithStream(old(BookOf(key.base)), key.epoch, st).(base := key.base))
    {
      var b := BookOf(key.base);
      books := books[key.base := b.(streams := b.streams[key.epoch := st], base := key.base)];
    }

    /** One round of the loop in `pay`; on failure storage may be half written, and `pay` reverts. */
    method PayKey(id: nat, key: Key, eligible: bool, settles: bool) returns (r: Result<Unit, Error>)
      requires Valid() && 0 < id
      modifies `books, `rawCustody, `purchasedOutstanding, `purchasedSpent, `held
      ensures var done := Model.PayKey(old(Snapshot()), id, key, eligible, settles);
              if done.Success? then Snapshot() == done.value && r == Success(Unit) else r == Failure(done.error)
    {
      hide Runs.Inv, Model.Claimable, Model.Pull, Model.DeliverRaw, Model.DeliverStock;
      var st := StreamOf(key);
      var amount := Claimable(id, key);
      if amount.Failure? {
        return Failure(amount.error);
      }
      if amount.value == 0 {
        return Success(Unit);
      }
      if !eligible {
        return Failure(DeliveryEligibility);
      }
      if !settles {
        return Failure(Settlement);
      }
      WriteStream(key, st.(paidRaw := st.paidRaw[id := Amount(st.paidRaw, id) + amount.value]));
      assert Snapshot() == MarkPaid(old(Snapshot()), id, key, amount.value);
      r := Settle(key.base, st.purchasedAsset, amount.value);
    }

    /** What a card is paid leaves this contract. */
    method Settle(base: Base, purchasedAsset: Address, amount: nat) returns (r: Result<Unit, Error>)
      modifies `books, `rawCustody, `purchasedOutstanding, `purchasedSpent, `held
      ensures var pulled := Model.Pull(old(Snapshot()), base);
              var done := if base.IsRaw() then Model.DeliverRaw(pulled, base.asset, amount)
                          else Model.DeliverStock(pulled, purchasedAsset, amount);
              if done.Success? then Snapshot() == done.value && r == Success(Unit) else r == Failure(done.error)
    {
      hide Model.Pull, Model.DeliverRaw, Model.DeliverStock;
      Pull(base);
      if base.IsRaw() {
        r := DeliverRaw(base.asset, amount);
      } else {
        r := DeliverStock(purchasedAsset, amount);
      }
    }

    /** pay: all named streams or none; nothing but eligibility or an outside transfer stops a rightful claim. */
    method Pay(id: nat, keys: seq<Key>, eligible: bool, settles: bool) returns (r: Result<Unit, Error>)
      requires Valid()
      modifies `books, `rawCustody, `purchasedOutstanding, `purchasedSpent, `held
      ensures RealizesUnit(Model.Pay(old(Snapshot()), id, keys, eligible, settles), old(Snapshot()), Snapshot(), r)
      ensures Valid()
      ensures r.Failure? ==> r.error in {Claim, ProtocolDelegated} || Runs.OutsideRefused(r.error, eligible, settles)
    {
      hide Runs.Inv, Model.PayKey;
      Runs.PayKeeps(Snapshot(), id, keys, eligible, settles);
      if id !in nft.owner || MAX_KEYS < |keys| {
        return Failure(Claim);
      }
      if nft.owner[id] == nft.protocolVault {
        return Failure(ProtocolDelegated);
      }
      Runs.PayableCard(Snapshot(), id);
      var b, custody, outstanding, spent, balance := books, rawCustody, purchasedOutstanding, purchasedSpent, held;
      var i := 0;
      while i < |keys|
        invariant 0 <= i <= |keys|
        invariant Valid() && Snapshot().nft == old(Snapshot()).nft
        invariant Model.PayKeys(Snapshot(), id, keys[i..], eligible, settles)
                  == Model.PayKeys(old(Snapshot()), id, keys, eligible, settles)
      {
        assert keys[i..][0] == keys[i] && keys[i..][1..] == keys[i + 1..];
        Runs.PayKeyKeeps(Snapshot(), id, keys[i], eligible, settles);
        var paid := PayKey(id, keys[i], eligible, settles);
        if paid.Failure? {
          books, rawCustody, purchasedOutstanding, purchasedSpent, held := b, custody, outstanding, spent, balance;
          return paid;
        }
        i := i + 1;
      }
      return Success(Unit);
    }

    /** _fundProtocol, as fundProtocolDeskBudget and forwardProtocolDesk call it. */
    method FundProtocol(key: Key, settles: bool) returns (r: Result<Unit, Error>)
      requires Valid()
      modifies `books, `rawCustody, `held
      ensures RealizesUnit(Model.FundProtocol(old(Snapshot()), key, settles), old(Snapshot()), Snapshot(), r)
      ensures Valid() && (r.Failure? ==> r.error in {NoStream, Settlement})
    {
      hide Runs.Inv, Model.Pull;
      Runs.FundProtocolKeeps(Snapshot(), key, settles);
      var st := StreamOf(key);
      if st.supply == 0 {
        return Failure(NoStream);
      }
      DivBounds(st.delegatedCredit27, PRECISION);
      var whole := st.delegatedCredit27 / PRECISION;
      if whole < st.delegatedFunded {
        return Failure(Underflow);
      }
      var amount := whole - st.delegatedFunded;
      if amount == 0 {
        return Success(Unit);
      }
      if !settles {
        return Failure(Settlement);
      }
      WriteStream(key, st.(delegatedFunded := st.delegatedFunded + amount));
      assert Snapshot() == MarkFunded(old(Snapshot()), key, amount);
      Pull(key.base);
      if key.base.IsRaw() {
        r := DeliverRaw(key.base.asset, amount);
      } else {
        r := SendNative(amount);
      }
    }

    method SealDesk(key: Key, asset: Address, settles: bool) returns (r: Result<Unit, Error>)
      requires Valid()
      modifies `books, `rawCustody, `held
      ensures RealizesUnit(Model.SealDesk(old(Snapshot()), key, asset, settles), old(Snapshot()), Snapshot(), r)
      ensures Valid() && (r.Failure? ==> r.error in {NotEntry, Seal, EmptyBudget, Settlement})
    {
      hide Runs.Inv, Model.Pull;
      Runs.SealKeeps(Snapshot(), key, asset, settles);
      var st := StreamOf(key);
      if key.base.IsRaw() || st.supply == 0 || asset == NATIVE {
        return Failure(NotEntry);
      }
      if st.isSealed || timestamp < (key.epoch + 1) * DAY {
        return Failure(Seal);
      }
      DivBounds(st.totalCredit27, PRECISION);
      var budget := st.totalCredit27 / PRECISION;
      if budget == 0 {
        return Failure(EmptyBudget);
      }
      if !settles {
        return Failure(Settlement);
      }
      WriteStream(key, st.(isSealed := true, entryAsset := asset));
      Pull(key.base);
      r := SendNative(budget);
    }

    // ---- Bought stock ----

    /** The payout vault's `claimFor`. */
    method ClaimFor(asset: Address)
      modifies `ready, `paidTotal, `held
      ensures Snapshot() == Model.ClaimFor(old(Snapshot()), asset)
    {
      var amount := Amount(ready, asset);
      ready := ready[asset := 0];
      paidTotal := Plus(paidTotal, asset, amount);
      held := Plus(held, asset, amount);
    }

    method SyncPurchased(key: Key, settles: bool) returns (r: Result<Unit, Error>)
      requires Valid()
      modifies `books, `purchasedOutstanding, `ready, `paidTotal, `held
      ensures RealizesUnit(Model.SyncPurchased(old(Snapshot()), key, settles), old(Snapshot()), Snapshot(), r)
      ensures Valid() && (r.Failure? ==> r.error in {NotEntry, Settlement})
    {
      hide Runs.Inv, Model.ClaimFor;
      Runs.SyncKeeps(Snapshot(), key, settles);
      var st := StreamOf(key);
      if !st.isSealed {
        return Failure(NotEntry);
      }
      if !settles {
        return Failure(Settlement);
      }
      ClaimFor(st.entryAsset);
      var cumulative := st.delivered;
      var delta := cumulative - st.purchasedRaw;
      WriteStream(key, st.(purchasedRaw := cumulative, purchasedAsset := st.entryAsset));
      purchasedOutstanding := Plus(purchasedOutstanding, st.entryAsset, delta);
      return Success(Unit);
    }
  }
}
