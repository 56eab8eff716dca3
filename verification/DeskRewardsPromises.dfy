/** What the holders of Desk cards can rely on, whatever sequence of transactions came before. */
module DeskRewardsPromises {
  import opened Balances
  import opened FloorMath
  import opened MapSums
  import opened Outcomes
  import opened DeskLedgerModel
  import opened DeskLedgerRuns
  import opened DeskPayouts
  import opened DeskRewardsModel
  import opened DeskRewardsRuns
  import opened DeskHistory
  import N = DeskNFTModel

  /** A state some run of transactions reaches. */
  ghost predicate Reachable(s: State) {
    exists royaltyAssets, now, ops :: NATIVE !in royaltyAssets && s == Run(Deployed(royaltyAssets, now), ops)
  }

  /** A state some run of transactions reaches, and the fees of that run for one base. */
  ghost predicate ReachedWith(s: State, base: Base, fees: seq<Fee>) {
    exists royaltyAssets, now, ops ::
      && NATIVE !in royaltyAssets
      && s == Run(Deployed(royaltyAssets, now), ops) && fees == History(Deployed(royaltyAssets, now), ops, base)
  }

  lemma ReachedWithKeeps(s: State, base: Base, fees: seq<Fee>)
    requires ReachedWith(s, base, fees)
    ensures Inv(s) && BookAt(s, base).log == fees && TotalReceived(BookAt(s, base)) == TotalFees(fees)
  {
    hide Inv, Run, History, TotalReceived;
    var royaltyAssets, now, ops :|
      && NATIVE !in royaltyAssets
      && s == Run(Deployed(royaltyAssets, now), ops) && fees == History(Deployed(royaltyAssets, now), ops, base);
    ReachableInv(royaltyAssets, now, ops);
    RecordIsHistory(royaltyAssets, now, ops, base);
  }

  /** A state that follows `s` in some run. */
  ghost predicate Later(s: State, t: State) {
    exists ops :: t == Run(s, ops)
  }

  lemma ReachableKeepsInv(s: State)
    requires Reachable(s)
    ensures Inv(s)
  {
    hide Inv, Run;
    var royaltyAssets, now, ops :| NATIVE !in royaltyAssets && s == Run(Deployed(royaltyAssets, now), ops);
    ReachableInv(royaltyAssets, now, ops);
  }

  /**
   For every interleaving of mints, transfers, fees and payouts, the binary search gives each card, day by day,
   exactly what the eager ledger makes of the run's fees: the same whole quotient, from every fee, for every card
   that existed then. The fees are read off the transactions themselves.
   */
  lemma EveryCardGetsItsEagerShare(s: State, fees: seq<Fee>, key: Key, id: nat)
    requires ReachedWith(s, key.base, fees) && 0 < id
    ensures Countable(fees) && Credit27(StreamOf(s, key), id) == EagerShare(EagerOf(fees), key.epoch, id)
  {
    hide Inv, EagerOf, Run, History, TotalReceived;
    ReachedWithKeeps(s, key.base, fees);
    StreamIsEager(s, key, id);
  }

  /** An older card never has less credit than a younger one, and the same if a fee already found both. */
  lemma OlderCardsHaveNoLess(s: State, key: Key, older: nat, younger: nat)
    requires Reachable(s) && 0 < older <= younger
    ensures Credit27(StreamOf(s, key), younger) <= Credit27(StreamOf(s, key), older)
    ensures var gs := StreamOf(s, key).generations;
            gs != [] && younger <= gs[0].upperId ==>
              Credit27(StreamOf(s, key), younger) == Credit27(StreamOf(s, key), older)
  {
    hide N.Inv, CustodyInv, StockInv, HeldInv, Refines, Conserves, Sides, PaidInv;
    ReachableKeepsInv(s);
    BookOf(s, key.base);
    var gs := StreamOf(s, key).generations;
    if gs != [] {
      FirstCoveringIs(gs, older, FirstCovering(gs, older));
    }
  }

  /** No remainder is ever lost: credits, the running remainder and the waiting one make up all that was received. */
  lemma NoRemainderIsLost(s: State, base: Base, fees: seq<Fee>)
    requires ReachedWith(s, base, fees)
    ensures var b := BookAt(s, base);
            && PRECISION * TotalFees(fees) == TotalCredited27(b) + Undivided27(b)
            && (forall e <- b.streams :: b.latest != Epoch(e) ==> b.streams[e].rem == 0)
            && (forall e <- b.nextEpochRemainder :: b.latest.Epoch? && e == b.latest.day + 1)
  {
    hide Inv, Run, History, TotalReceived, TotalCredited27, Undivided27;
    ReachedWithKeeps(s, base, fees);
    RemaindersAreKept(s, base);
  }

  lemma RemaindersAreKept(s: State, base: Base)
    requires Inv(s)
    ensures var b := BookAt(s, base);
            && PRECISION * TotalReceived(b) == TotalCredited27(b) + Undivided27(b)
            && (forall e <- b.streams :: b.latest != Epoch(e) ==> b.streams[e].rem == 0)
            && (forall e <- b.nextEpochRemainder :: b.latest.Epoch? && e == b.latest.day + 1)
  {
    hide N.Inv, CustodyInv, StockInv, HeldInv, StreamsInv, Refines;
    BookOf(s, base);
  }

  /**
   The vault holds exactly `protocolMinted` cards; what ordinary cards can see of a stream adds up to its total,
   and what the vault's cards can see adds up to what was delegated.
   */
  lemma SidesAddUp(s: State, key: Key)
    requires Reachable(s)
    ensures var st, vault, cards := StreamOf(s, key), N.VaultIds(s.nft), N.TotalSupply(s.nft);
            && |vault| == s.nft.protocolMinted <= cards
            && (forall id :: id in s.nft.owner <==> 1 <= id <= cards)
            && SideCredit27(st, vault, false, cards) == st.totalCredit27
            && SideCredit27(st, vault, true, cards) == st.delegatedCredit27
  {
    hide CustodyInv, StockInv, HeldInv, Ledgered, PaidInv, StreamShape;
    ReachableKeepsInv(s);
    BookOf(s, key.base);
    VaultWithinCards(s.nft);
    FreshSides(N.VaultIds(s.nft), N.TotalSupply(s.nft));
  }

  /** A stream's cards never received more than it has for them: whole credit units, or the stock bought. */
  lemma StreamsNeverOverpay(s: State, key: Key)
    requires Reachable(s)
    ensures var st := StreamOf(s, key);
            && PRECISION * st.delegatedFunded <= st.delegatedCredit27
            && (if key.base.IsRaw() then PRECISION * PaidSum(st) <= st.totalCredit27
                else PaidSum(st) <= st.purchasedRaw)
  {
    hide N.Inv, CustodyInv, StockInv, HeldInv, Ledgered, Sides, StreamShape;
    ReachableKeepsInv(s);
    BookOf(s, key.base);
    var st := StreamOf(s, key);
    if key.epoch !in BookAt(s, key.base).streams {
      assert PaidSum(FRESH) == 0;
    } else if key.base.IsRaw() {
      RawPaymentsWithinCredit(st, N.VaultIds(s.nft), N.TotalSupply(s.nft));
    } else {
      StockPaymentsWithinPurchase(st, N.VaultIds(s.nft), N.TotalSupply(s.nft));
    }
  }

  /** Over all its days a source never gives out more than it received, and custody is exactly the sum of the rest. */
  lemma SourcesNeverOverdraw(s: State, base: Base)
    requires Reachable(s)
    ensures var b := BookAt(s, base);
            && 0 <= TotalDrawn(b) && b.due + TotalDrawn(b) <= TotalReceived(b)
            && (forall a :: Amount(s.custody, a) == Sum(s.books, ShareOf(a)))
            && (forall a :: Amount(s.purchasedOutstanding, a) == Sum(s.books, Over(UnpaidOf(a))))
  {
    hide N.Inv, HeldInv, Sides, StreamShape, PaidInv, BookShape, Refines;
    ReachableKeepsInv(s);
    BookOf(s, base);
    DrawnWithinReceived(BookAt(s, base), N.VaultIds(s.nft), N.TotalSupply(s.nft));
  }

  /** No checked subtraction, no balance and no coverage check ever stops a transaction. */
  lemma NothingUnderflows(s: State, op: Op)
    requires Reachable(s)
    ensures Attempt(s, op) != Failure(Underflow) && Attempt(s, op) != Failure(PurchaseCoverage)
  {
    hide Inv, OnFeeCredit, ReceiveNative, DepositRoyalty, SyncRoyalty, Pay, FundProtocol, SealDesk, Deliver, ClaimFor,
      SyncPurchased, MintAndCredit, LiftNFT;
    ReachableKeepsInv(s);
    CardsAreValid(s);
    match op
    case OpPay(id, keys, eligible, settles) => PayKeeps(s, id, keys, eligible, settles);
    case OpFundProtocol(key, settles) => FundProtocolKeeps(s, key, settles);
    case OpSealDesk(key, asset, settles) => SealKeeps(s, key, asset, settles);
    case OpSyncPurchased(key, settles) => SyncKeeps(s, key, settles);
    case _ => FeesNeverUnderflow(s, op);
  }

  lemma FeesNeverUnderflow(s: State, op: Op)
    requires Inv(s)
    requires !op.OpPay? && !op.OpFundProtocol? && !op.OpSealDesk? && !op.OpSyncPurchased?
    ensures Attempt(s, op) != Failure(Underflow) && Attempt(s, op) != Failure(PurchaseCoverage)
  {
    hide Inv, N.Inv, CreditFee, N.Mint, N.MintProtocol, N.GrantSponsored, N.Transfer, N.ConfigureProtocolVault,
      N.SetMintCap, SyncRoyalty, ReceiveNative, MintAndCredit, ClaimFor, StreamOf, OnFeeCredit, DepositRoyalty;
    CardsAreValid(s);
    match op
    case OpFeeCredit(base, amount) => FeeNeverUnderflows(s, base, amount);
    case OpNativeRoyalty(amount) => NativeNeverUnderflows(s, Royalty, amount);
    case OpDepositRoyalty(asset, raw) => DepositNeverUnderflows(s, asset, raw);
    case OpSyncRoyalty(asset) => SyncRoyaltyKeeps(s, asset);
    case OpMint(_, _, _) => MintsNeverUnderflow(s, op);
    case OpMintProtocol(_, _, _) => MintsNeverUnderflow(s, op);
    case OpGrantSponsored(_, _, _, _) => MintsNeverUnderflow(s, op);
    case _ =>
  }

  lemma FeeNeverUnderflows(s: State, base: Base, amount: nat)
    requires N.Inv(s.nft)
    ensures var r := OnFeeCredit(s, base, amount); r != Failure(Underflow) && r != Failure(PurchaseCoverage)
  {
    hide CreditFee, N.Inv;
    var b := BookAt(s, base);
    CreditNeverUnderflows(WithBook(s, b.(base := base, due := b.due + amount)), base, amount);
  }

  lemma DepositNeverUnderflows(s: State, asset: Address, raw: nat)
    requires N.Inv(s.nft)
    ensures var r := DepositRoyalty(s, asset, raw); r != Failure(Underflow) && r != Failure(PurchaseCoverage)
  {
    hide CreditFee, N.Inv;
    CreditNeverUnderflows(s.(custody := Plus(s.custody, asset, raw), held := Plus(s.held, asset, raw)),
                          Base(Royalty, asset), raw);
  }

  lemma MintsNeverUnderflow(s: State, op: Op)
    requires N.Inv(s.nft) && (op.OpMint? || op.OpMintProtocol? || op.OpGrantSponsored?)
    ensures Attempt(s, op) != Failure(Underflow) && Attempt(s, op) != Failure(PurchaseCoverage)
  {
    hide N.Inv, MintAndCredit, N.Mint, N.MintProtocol, N.GrantSponsored;
    match op
    case OpMint(count, to, payment) =>
      N.MintKeeps(s.nft, count, to, payment);
      MintNeverUnderflows(s, N.Mint(s.nft, count, to, payment), payment.fee);
    case OpMintProtocol(caller, count, payment) =>
      N.MintProtocolKeeps(s.nft, caller, count, payment);
      MintNeverUnderflows(s, N.MintProtocol(s.nft, caller, count, payment), payment.fee);
    case OpGrantSponsored(isGov, recipient, consented, payment) =>
      N.GrantKeeps(s.nft, isGov, recipient, consented, payment);
      MintNeverUnderflows(s, N.GrantSponsored(s.nft, isGov, recipient, consented, payment), payment.fee);
  }

  lemma NativeNeverUnderflows(s: State, source: Source, amount: nat)
    requires N.Inv(s.nft)
    ensures var r := ReceiveNative(s, source, amount); r != Failure(Underflow) && r != Failure(PurchaseCoverage)
  {
    hide CreditFee, N.Inv;
    CreditNeverUnderflows(s.(custody := Plus(s.custody, NATIVE, amount)), Base(source, NATIVE), amount);
  }

  lemma MintNeverUnderflows(s: State, r: Result<N.State, N.Error>, fee: nat)
    requires r.Success? ==> N.Inv(r.value)
    ensures MintAndCredit(s, r, fee) != Failure(Underflow) && MintAndCredit(s, r, fee) != Failure(PurchaseCoverage)
  {
    hide N.Inv, ReceiveNative;
    if r.Success? {
      NativeNeverUnderflows(s.(nft := r.value), Surcharge, N.Surcharge(fee));
    }
  }

  // ---- Sealed days ----

  /** A sealed stream is a native one whose day is over. */
  lemma SealedDayIsOver(s: State, key: Key)
    requires Inv(s) && StreamOf(s, key).isSealed
    ensures !key.base.IsRaw() && key.epoch < Today(s)
  {
    hide N.Inv, CustodyInv, StockInv, HeldInv, Ledgered, Sides;
    BookOf(s, key.base);
  }

  /** Whatever happens after a stream is sealed, no card's share of what is bought for it changes. */
  lemma SealedSharesAreFrozen(s: State, t: State, key: Key, id: nat)
    requires Reachable(s) && Later(s, t) && StreamOf(s, key).isSealed
    ensures !key.base.IsRaw() && key.epoch < Today(s)
    ensures SameShares(StreamOf(s, key), StreamOf(t, key))
    ensures Credit27(StreamOf(t, key), id) == Credit27(StreamOf(s, key), id)
  {
    hide Inv, Run, History, TotalReceived, SameShares, StreamAt;
    ReachableKeepsInv(s);
    SealedDayIsOver(s, key);
    var ops :| t == Run(s, ops);
    RunRecords(s, ops, key.base);
    SameSharesSameCredit(StreamOf(s, key), StreamOf(t, key), id);
  }

  lemma SameSharesSameCredit(st: Stream, t: Stream, id: nat)
    requires SameShares(st, t)
    ensures Credit27(t, id) == Credit27(st, id)
  {
  }
}
