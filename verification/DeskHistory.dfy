/** The fees a book records are exactly those of the run: the history is read off the transactions, not the books. */
module DeskHistory {
  import opened Balances
  import opened FloorMath
  import opened MapSums
  import opened Outcomes
  import opened DeskLedgerModel
  import opened DeskLedgerRuns
  import opened DeskPayouts
  import opened DeskRewardsModel
  import opened DeskRewardsRuns
  import N = DeskNFTModel

  // ---- The history of a run ----

  /** What `syncRoyalty` finds of an asset beyond custody and bought stock. */
  function Unaccounted(s: State, asset: Address): int {
    Amount(s.held, asset) - Amount(s.custody, asset) - (Amount(s.paidTotal, asset) - Amount(s.purchasedSpent, asset))
  }

  /** The amount a transaction, if it succeeds, is a fee of for `base`. */
  function FeeFor(s: State, op: Op, base: Base): int {
    match op
    case OpMint(_, _, payment) => if base == Base(Surcharge, NATIVE) then N.Surcharge(payment.fee) else 0
    case OpMintProtocol(_, _, payment) => if base == Base(Surcharge, NATIVE) then N.Surcharge(payment.fee) else 0
    case OpGrantSponsored(_, _, _, payment) => if base == Base(Surcharge, NATIVE) then N.Surcharge(payment.fee) else 0
    case OpFeeCredit(b, amount) => if base == b then amount else 0
    case OpNativeRoyalty(amount) => if base == Base(Royalty, NATIVE) then amount else 0
    case OpDepositRoyalty(asset, raw) => if base == Base(Royalty, asset) then raw else 0
    case OpSyncRoyalty(asset) => if base == Base(Royalty, asset) then Unaccounted(s, asset) else 0
    case _ => 0
  }

  /** The fee of one transaction, with the cards there were by then: a mint's surcharge reaches the cards it mints. */
  function FeeOf(s: State, op: Op, base: Base): seq<Fee> {
    if Attempt(s, op).Success? && 0 < FeeFor(s, op, base)
    then [Fee(Today(s), N.TotalSupply(Step(s, op).nft), FeeFor(s, op, base))]
    else []
  }

  function History(s: State, ops: seq<Op>, base: Base): seq<Fee>
    decreases |ops|
  {
    if ops == [] then [] else FeeOf(s, ops[0], base) + History(Step(s, ops[0]), ops[1..], base)
  }

  function TotalFees(fees: seq<Fee>): nat {
    if fees == [] then 0 else fees[0].amount + TotalFees(fees[1..])
  }

  lemma {:induction false} TotalFeesAdds(a: seq<Fee>, b: seq<Fee>)
    ensures TotalFees(a + b) == TotalFees(a) + TotalFees(b)
  {
    if a == [] {
      assert a + b == b;
    } else {
      assert (a + b)[1..] == a[1..] + b;
      TotalFeesAdds(a[1..], b);
    }
  }

  // ---- What one transaction records ----

  /** A sealed stream stays sealed, and everything its shares are computed from stays as it was. */
  predicate SameShares(st: Stream, t: Stream) {
    && t.isSealed && t.entryAsset == st.entryAsset && t.supply == st.supply
    && t.counter == st.counter && t.generations == st.generations && t.received == st.received
    && t.totalCredit27 == st.totalCredit27 && t.delegatedCredit27 == st.delegatedCredit27
  }

  ghost predicate KeepsSealed(b: Book, b': Book) {
    forall e: nat :: StreamAt(b, e).isSealed ==> SameShares(StreamAt(b, e), StreamAt(b', e))
  }

  /** `b'` records `fees` after what `b` records, received their amounts more, and changed no sealed stream's shares. */
  ghost predicate Records(b: Book, b': Book, fees: seq<Fee>) {
    && b'.log == b.log + fees && TotalReceived(b') == TotalReceived(b) + TotalFees(fees)
    && KeepsSealed(b, b')
  }

  ghost predicate RecordsAt(s: State, s': State, base: Base, fees: seq<Fee>) {
    Records(BookAt(s, base), BookAt(s', base), fees)
  }

  lemma NothingRecorded(s: State, s': State, base: Base)
    requires s'.books == s.books
    ensures RecordsAt(s, s', base, [])
  {
  }

  lemma NothingThenNothing(s: State, t: State, u: State, base: Base)
    requires RecordsAt(s, t, base, []) && RecordsAt(t, u, base, [])
    ensures RecordsAt(s, u, base, [])
  {
  }

  /** Only `_credit` records: editing what a stream paid, funded or bought does not. */
  lemma EditRecordsNothing(s: State, key: Key, t: Stream, base: Base)
    requires SameCredits(StreamOf(s, key), t)
    requires StreamOf(s, key).isSealed ==> t.isSealed && t.entryAsset == StreamOf(s, key).entryAsset
    ensures RecordsAt(s, WithBook(s, WithStream(BookAt(s, key.base), key.epoch, t).(base := key.base)), base, [])
  {
    SumUpdate(BookAt(s, key.base).streams, key.epoch, t, Received());
  }

  lemma PullRecordsNothing(s: State, from: Base, base: Base)
    ensures RecordsAt(s, Pull(s, from), base, [])
  {
  }

  lemma DeliveryRecordsNothing(s: State, asset: Address, amount: nat, base: Base)
    ensures DeliverRaw(s, asset, amount).Success? ==> RecordsAt(s, DeliverRaw(s, asset, amount).value, base, [])
    ensures DeliverStock(s, asset, amount).Success? ==> RecordsAt(s, DeliverStock(s, asset, amount).value, base, [])
    ensures SendNative(s, amount).Success? ==> RecordsAt(s, SendNative(s, amount).value, base, [])
  {
    hide RecordsAt, DeliverRaw, DeliverStock, SendNative;
    DeliveryWritesNoBook(s, asset, amount);
    if DeliverRaw(s, asset, amount).Success? { NothingRecorded(s, DeliverRaw(s, asset, amount).value, base); }
    if DeliverStock(s, asset, amount).Success? { NothingRecorded(s, DeliverStock(s, asset, amount).value, base); }
    if SendNative(s, amount).Success? { NothingRecorded(s, SendNative(s, amount).value, base); }
  }

  lemma DeliveryWritesNoBook(s: State, asset: Address, amount: nat)
    ensures DeliverRaw(s, asset, amount).Success? ==> DeliverRaw(s, asset, amount).value.books == s.books
    ensures DeliverStock(s, asset, amount).Success? ==> DeliverStock(s, asset, amount).value.books == s.books
    ensures SendNative(s, amount).Success? ==> SendNative(s, amount).value.books == s.books
  {
  }

  lemma PayKeyRecordsNothing(s: State, id: nat, key: Key, eligible: bool, settles: bool, base: Base)
    ensures var r := PayKey(s, id, key, eligible, settles); r.Success? ==> RecordsAt(s, r.value, base, [])
  {
    hide Pull, MarkPaid, DeliverRaw, DeliverStock, Claimable, StreamOf, RecordsAt;
    var st := StreamOf(s, key);
    var r := PayKey(s, id, key, eligible, settles);
    if r.Success? {
      var amount := Claimable(st, key.base.IsRaw(), id).value;
      if amount == 0 {
        NothingRecorded(s, s, base);
      } else {
        var marked := MarkPaid(s, id, key, amount);
        var pulled := Pull(marked, key.base);
        MarkPaidRecordsNothing(s, id, key, amount, base);
        PullRecordsNothing(marked, key.base, base);
        DeliveryRecordsNothing(pulled, key.base.asset, amount, base);
        DeliveryRecordsNothing(pulled, st.purchasedAsset, amount, base);
        NothingThenNothing(s, marked, pulled, base);
        NothingThenNothing(s, pulled, r.value, base);
      }
    }
  }

  lemma MarkPaidRecordsNothing(s: State, id: nat, key: Key, amount: nat, base: Base)
    ensures RecordsAt(s, MarkPaid(s, id, key, amount), base, [])
  {
    hide RecordsAt;
    var st := StreamOf(s, key);
    EditRecordsNothing(s, key, st.(paidRaw := st.paidRaw[id := Amount(st.paidRaw, id) + amount]), base);
  }

  lemma {:induction false} PayKeysRecordNothing(s: State, id: nat, keys: seq<Key>, eligible: bool, settles: bool,
                                                base: Base)
    ensures var r := PayKeys(s, id, keys, eligible, settles); r.Success? ==> RecordsAt(s, r.value, base, [])
    decreases |keys|
  {
    hide PayKey, RecordsAt;
    var r := PayKeys(s, id, keys, eligible, settles);
    if keys == [] {
      NothingRecorded(s, s, base);
    } else if r.Success? {
      var paid := PayKey(s, id, keys[0], eligible, settles).value;
      PayKeyRecordsNothing(s, id, keys[0], eligible, settles, base);
      PayKeysRecordNothing(paid, id, keys[1..], eligible, settles, base);
      NothingThenNothing(s, paid, r.value, base);
    }
  }

  lemma FundRecordsNothing(s: State, key: Key, settles: bool, base: Base)
    ensures var r := FundProtocol(s, key, settles); r.Success? ==> RecordsAt(s, r.value, base, [])
  {
    hide Pull, DeliverRaw, SendNative, Fundable, RecordsAt;
    var st := StreamOf(s, key);
    var r := FundProtocol(s, key, settles);
    NothingRecorded(s, s, base);
    if r.Success? && 0 < Fundable(st).value {
      var amount := Fundable(st).value;
      var marked := MarkFunded(s, key, amount);
      var pulled := Pull(marked, key.base);
      EditRecordsNothing(s, key, st.(delegatedFunded := st.delegatedFunded + amount), base);
      PullRecordsNothing(marked, key.base, base);
      DeliveryRecordsNothing(pulled, key.base.asset, amount, base);
      NothingThenNothing(s, marked, pulled, base);
      NothingThenNothing(s, pulled, r.value, base);
    }
  }

  /** A stream is sealed at most once. */
  lemma SealRecordsNothing(s: State, key: Key, asset: Address, settles: bool, base: Base)
    ensures var r := SealDesk(s, key, asset, settles); r.Success? ==> RecordsAt(s, r.value, base, [])
  {
    hide Pull, SendNative, RecordsAt;
    var st := StreamOf(s, key);
    var r := SealDesk(s, key, asset, settles);
    if r.Success? {
      var t := st.(isSealed := true, entryAsset := asset);
      var marked := WithBook(s, WithStream(BookAt(s, key.base), key.epoch, t).(base := key.base));
      var pulled := Pull(marked, key.base);
      EditRecordsNothing(s, key, t, base);
      PullRecordsNothing(marked, key.base, base);
      DeliveryRecordsNothing(pulled, NATIVE, Budget(st), base);
      NothingThenNothing(s, marked, pulled, base);
      NothingThenNothing(s, pulled, r.value, base);
    }
  }

  lemma StockRecordsNothing(s: State, key: Key, amount: nat, settles: bool, base: Base)
    ensures Deliver(s, key, amount).Success? ==> RecordsAt(s, Deliver(s, key, amount).value, base, [])
    ensures SyncPurchased(s, key, settles).Success? ==> RecordsAt(s, SyncPurchased(s, key, settles).value, base, [])
  {
    hide Records;
    var st := StreamOf(s, key);
    EditRecordsNothing(s, key, st.(delivered := st.delivered + amount), base);
    EditRecordsNothing(s, key, st.(purchasedRaw := st.delivered, purchasedAsset := st.entryAsset), base);
  }

  // ---- A fee is recorded as it was credited ----

  lemma CreditRecords(s: State, base: Base, amount: nat, at: Base)
    requires N.Inv(s.nft) && BookAt(s, base).base == base && Creditable(s, base, amount)
    requires CreditFee(s, base, amount).Success?
    ensures RecordsAt(s, CreditFee(s, base, amount).value, at,
                      if at == base && 0 < amount then [Fee(Today(s), N.TotalSupply(s.nft), amount)] else [])
  {
    hide N.Inv, Credit, TotalReceived, Ledgered, StreamsInv, Dated, KeepsSealed;
    NothingRecorded(s, s, at);
    if amount != 0 {
      VaultWithinCards(s.nft);
      CreditKeepsBook(BookAt(s, base), Today(s), N.TotalSupply(s.nft), N.VaultIds(s.nft), amount);
      CreditLogs(BookAt(s, base), Today(s), N.TotalSupply(s.nft), s.nft.protocolMinted, amount);
      CreditKeepsSealed(BookAt(s, base), Today(s), N.TotalSupply(s.nft), s.nft.protocolMinted, amount);
      assert TotalFees([Fee(Today(s), N.TotalSupply(s.nft), amount)]) == amount;
    }
  }

  lemma CreditLogs(b: Book, epoch: nat, cards: nat, protocolCards: nat, amount: nat)
    requires 0 < cards && protocolCards <= cards
    ensures Credit(b, epoch, cards, protocolCards, amount).log == b.log + [Fee(epoch, cards, amount)]
  {
  }

  /** A sealed day is over, and a fee is credited to today. */
  lemma CreditKeepsSealed(b: Book, today: nat, cards: nat, protocolCards: nat, amount: nat)
    requires Ledgered(b, cards) && Dated(b, today) && 0 < cards && protocolCards <= cards
    ensures KeepsSealed(b, Credit(b, today, cards, protocolCards, amount))
  {
    hide Credit, Raised, Totalled, StreamShape, Refines, Conserves;
    var q := CreditEffect(b, Fee(today, cards, amount), protocolCards);
  }

  /** Fees that first arrive in custody. */
  lemma ArrivalRecords(s: State, s1: State, base: Base, amount: nat, at: Base)
    requires Inv(s) && s1 == s.(custody := s1.custody, held := s1.held) && CreditFee(s1, base, amount).Success?
    ensures RecordsAt(s, CreditFee(s1, base, amount).value, at,
                      if at == base && 0 < amount then [Fee(Today(s), N.TotalSupply(s.nft), amount)] else [])
  {
    hide N.Inv, BooksInv, CustodyInv, StockInv, HeldInv, CreditFee, Creditable;
    FeeIsCreditable(s, s1, base, amount);
    CreditRecords(s1, base, amount, at);
  }

  lemma OnFeeCreditRecords(s: State, base: Base, amount: nat, at: Base)
    requires Inv(s) && OnFeeCredit(s, base, amount).Success?
    ensures RecordsAt(s, OnFeeCredit(s, base, amount).value, at,
                      if at == base && 0 < amount then [Fee(Today(s), N.TotalSupply(s.nft), amount)] else [])
  {
    hide Inv, N.Inv, CreditFee, Creditable;
    PromisedFeeIsCreditable(s, base, amount);
    var b := BookAt(s, base);
    CreditRecords(WithBook(s, b.(base := base, due := b.due + amount)), base, amount, at);
  }

  lemma MintRecords(s: State, r: Result<N.State, N.Error>, fee: nat, at: Base)
    requires Inv(s) && (r.Success? ==> N.Inv(r.value) && N.Grows(s.nft, r.value))
    ensures MintAndCredit(s, r, fee).Success? ==>
              && MintAndCredit(s, r, fee).value.nft == r.value
              && RecordsAt(s, MintAndCredit(s, r, fee).value, at,
                           if at == Base(Surcharge, NATIVE) && 0 < N.Surcharge(fee)
                           then [Fee(Today(s), N.TotalSupply(r.value), N.Surcharge(fee))] else [])
  {
    hide Inv, N.Inv, N.Grows, CreditFee, N.Surcharge, RecordsAt;
    if MintAndCredit(s, r, fee).Success? {
      var minted := s.(nft := r.value);
      var s1 := minted.(custody := Plus(minted.custody, NATIVE, N.Surcharge(fee)));
      GrowthKeeps(s, r.value, s.now);
      ArrivalRecords(minted, s1, Base(Surcharge, NATIVE), N.Surcharge(fee), at);
      RecordsAfterMint(s, r.value, at);
      CreditMintsNothing(s1, Base(Surcharge, NATIVE), N.Surcharge(fee));
    }
  }

  /** Minting touches no book. */
  lemma RecordsAfterMint(s: State, nft: N.State, base: Base)
    ensures forall t: State, fees: seq<Fee> :: RecordsAt(s, t, base, fees) <==> RecordsAt(s.(nft := nft), t, base, fees)
  {
  }

  lemma CreditMintsNothing(s: State, base: Base, amount: nat)
    ensures CreditFee(s, base, amount).Success? ==> CreditFee(s, base, amount).value.nft == s.nft
  {
    hide Credit;
  }

  // ---- Transactions and runs ----

  predicate IsMint(op: Op) {
    op.OpMint? || op.OpMintProtocol? || op.OpGrantSponsored?
  }

  predicate IsArrival(op: Op) {
    op.OpNativeRoyalty? || op.OpDepositRoyalty? || op.OpSyncRoyalty?
  }

  lemma MintStepRecords(s: State, op: Op, base: Base)
    requires Inv(s) && IsMint(op)
    ensures Attempt(s, op).Success? ==> RecordsAt(s, Step(s, op), base, FeeOf(s, op, base))
  {
    hide Inv, N.Inv, N.Grows, N.Mint, N.MintProtocol, N.GrantSponsored, MintAndCredit, RecordsAt, N.Surcharge;
    CardsAreValid(s);
    match op
    case OpMint(count, to, payment) =>
      N.MintKeeps(s.nft, count, to, payment);
      MintRecords(s, N.Mint(s.nft, count, to, payment), payment.fee, base);
    case OpMintProtocol(caller, count, payment) =>
      N.MintProtocolKeeps(s.nft, caller, count, payment);
      MintRecords(s, N.MintProtocol(s.nft, caller, count, payment), payment.fee, base);
    case OpGrantSponsored(isGov, recipient, consented, payment) =>
      N.GrantKeeps(s.nft, isGov, recipient, consented, payment);
      MintRecords(s, N.GrantSponsored(s.nft, isGov, recipient, consented, payment), payment.fee, base);
  }

  lemma ArrivalStepRecords(s: State, op: Op, base: Base)
    requires Inv(s) && IsArrival(op) && Attempt(s, op).Success?
    ensures RecordsAt(s, Step(s, op), base, FeeOf(s, op, base))
  {
    hide Inv, N.Inv, CreditFee, RecordsAt;
    match op
    case OpNativeRoyalty(amount) =>
      var s1 := s.(custody := Plus(s.custody, NATIVE, amount));
      CreditMintsNothing(s1, Base(Royalty, NATIVE), amount);
      ArrivalRecords(s, s1, Base(Royalty, NATIVE), amount, base);
    case OpDepositRoyalty(asset, raw) =>
      var s1 := s.(custody := Plus(s.custody, asset, raw), held := Plus(s.held, asset, raw));
      CreditMintsNothing(s1, Base(Royalty, asset), raw);
      ArrivalRecords(s, s1, Base(Royalty, asset), raw, base);
    case OpSyncRoyalty(asset) =>
      var s1 := s.(custody := Plus(s.custody, asset, Unaccounted(s, asset)));
      CreditMintsNothing(s1, Base(Royalty, asset), Unaccounted(s, asset));
      ArrivalRecords(s, s1, Base(Royalty, asset), Unaccounted(s, asset), base);
  }

  lemma FeeCreditStepRecords(s: State, op: Op, base: Base)
    requires Inv(s) && op.OpFeeCredit? && Attempt(s, op).Success?
    ensures RecordsAt(s, Step(s, op), base, FeeOf(s, op, base))
  {
    hide Inv, CreditFee, RecordsAt;
    var b := BookAt(s, op.base);
    CreditMintsNothing(WithBook(s, b.(base := op.base, due := b.due + op.amount)), op.base, op.amount);
    OnFeeCreditRecords(s, op.base, op.amount, base);
  }

  lemma OtherStepsRecordNothing(s: State, op: Op, base: Base)
    requires !IsMint(op) && !IsArrival(op) && !op.OpFeeCredit? && Attempt(s, op).Success?
    ensures RecordsAt(s, Step(s, op), base, [])
  {
    hide RecordsAt, PayKeys, FundProtocol, SealDesk, Deliver, SyncPurchased, N.Transfer, N.ConfigureProtocolVault,
      N.SetMintCap;
    match op
    case OpPay(id, keys, eligible, settles) => PayKeysRecordNothing(s, id, keys, eligible, settles, base);
    case OpFundProtocol(key, settles) => FundRecordsNothing(s, key, settles, base);
    case OpSealDesk(key, asset, settles) => SealRecordsNothing(s, key, asset, settles, base);
    case OpDeliver(key, amount) => StockRecordsNothing(s, key, amount, false, base);
    case OpSyncPurchased(key, settles) => StockRecordsNothing(s, key, 0, settles, base);
    case _ => NothingRecorded(s, Step(s, op), base);
  }

  /** A transaction adds exactly its own fee to the record of each base. */
  lemma StepRecords(s: State, op: Op, base: Base)
    requires Inv(s)
    ensures RecordsAt(s, Step(s, op), base, FeeOf(s, op, base))
  {
    hide Inv, RecordsAt, Attempt;
    if Attempt(s, op).Failure? {
      NothingRecorded(s, s, base);
    } else if IsMint(op) {
      MintStepRecords(s, op, base);
    } else if IsArrival(op) {
      ArrivalStepRecords(s, op, base);
    } else if op.OpFeeCredit? {
      FeeCreditStepRecords(s, op, base);
    } else {
      OtherStepsRecordNothing(s, op, base);
    }
  }

  lemma {:induction false} RunRecords(s: State, ops: seq<Op>, base: Base)
    requires Inv(s)
    ensures RecordsAt(s, Run(s, ops), base, History(s, ops, base))
    decreases |ops|
  {
    hide Inv, Step, FeeOf, TotalReceived, StreamAt;
    if ops == [] {
      NothingRecorded(s, s, base);
    } else {
      var t := Step(s, ops[0]);
      StepKeeps(s, ops[0]);
      StepRecords(s, ops[0], base);
      RunRecords(t, ops[1..], base);
      TotalFeesAdds(FeeOf(s, ops[0], base), History(t, ops[1..], base));
      assert BookAt(s, base).log + FeeOf(s, ops[0], base) + History(t, ops[1..], base)
          == BookAt(s, base).log + (FeeOf(s, ops[0], base) + History(t, ops[1..], base));
    }
  }

  /** From deployment on: the record of every base is the history of the run, and it received exactly those fees. */
  lemma RecordIsHistory(royaltyAssets: set<Address>, now: nat, ops: seq<Op>, base: Base)
    requires NATIVE !in royaltyAssets
    ensures var start := Deployed(royaltyAssets, now);
            var b := BookAt(Run(start, ops), base);
            b.log == History(start, ops, base) && TotalReceived(b) == TotalFees(b.log)
  {
    hide Run, Inv, History;
    var start := Deployed(royaltyAssets, now);
    ReachableInv(royaltyAssets, now, []);
    assert Run(start, []) == start by { RunOfNothing(start); }
    RunRecords(start, ops, base);
    assert BookAt(start, base).log == [] && TotalReceived(BookAt(start, base)) == 0;
  }

  lemma RunOfNothing(s: State)
    ensures Run(s, []) == s
  {
  }
}
