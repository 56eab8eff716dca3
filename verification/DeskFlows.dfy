/** What leaves and enters DeskRewards: the vault's part, a sealed day's budget, bought stock, and assets at all. */
module DeskFlows {
  import opened Balances
  import opened FloorMath
  import opened MapSums
  import opened Outcomes
  import opened DeskLedgerModel
  import opened DeskPayouts
  import opened DeskRewardsModel
  import opened DeskRewardsRuns
  import opened DeskRewardsPromises
  import opened DeskSettlements
  import opened DeskHistory
  import N = DeskNFTModel

  // ---- Writing one stream ----

  /** The book with one stream replaced. */
  function Written(s: State, key: Key, t: Stream): State {
    WithBook(s, WithStream(BookAt(s, key.base), key.epoch, t).(base := key.base))
  }

  lemma WritesOneStream(s: State, key: Key, t: Stream, other: Key)
    ensures StreamOf(Written(s, key, t), other) == if other == key then t else StreamOf(s, other)
    ensures Written(s, key, t) == s.(books := Written(s, key, t).books)
    ensures BookAt(Written(s, key, t), key.base).due == BookAt(s, key.base).due
  {
  }

  lemma SendingWritesNoStream(s: State, amount: nat, other: Key)
    ensures SendNative(s, amount).Success? ==> StreamOf(SendNative(s, amount).value, other) == StreamOf(s, other)
  {
  }

  lemma TransfersFailByUnderflow(s: State, asset: Address, amount: nat)
    ensures DeliverRaw(s, asset, amount).Failure? ==> DeliverRaw(s, asset, amount).error == Underflow
    ensures SendNative(s, amount).Failure? ==> SendNative(s, amount).error == Underflow
  {
  }

  // ---- The vault's part ----

  /** The vault was forwarded the whole units of what its cards were credited. */
  ghost predicate Forwarded(st: Stream) {
    IsFloor(st.delegatedFunded, st.delegatedCredit27, PRECISION)
  }

  /** Forwarding goes through for any stream there is, once its transfer settles, and leaves nothing whole behind. */
  lemma ForwardingPays(s: State, key: Key, settles: bool)
    requires Reachable(s)
    ensures var r := FundProtocol(s, key, settles);
            && (r.Success? <==> StreamOf(s, key).supply != 0 && (settles || Forwarded(StreamOf(s, key))))
            && (r.Success? ==>
                  && Forwarded(StreamOf(r.value, key))
                  && StreamOf(r.value, key)
                     == StreamOf(s, key).(delegatedFunded := StreamOf(r.value, key).delegatedFunded)
                  && (forall other :: other != key ==> StreamOf(r.value, other) == StreamOf(s, other)))
  {
    hide Inv, Reachable, Fundable, MarkFunded, Pull, DeliverRaw, SendNative, StreamOf, Forwarded;
    ReachableKeepsInv(s);
    FundProtocolKeeps(s, key, settles);
    var st := StreamOf(s, key);
    if st.supply != 0 {
      FundingMayBeMarked(s, key);
      FundableIsRest(st);
      var amount := Fundable(st).value;
      TransfersFailByUnderflow(Pull(MarkFunded(s, key, amount), key.base), key.base.asset, amount);
      if FundProtocol(s, key, settles).Success? {
        forall other { FundEffect(s, key, settles, other); }
        FundEffect(s, key, settles, key);
      }
    }
  }

  lemma FundEffect(s: State, key: Key, settles: bool, other: Key)
    requires FundProtocol(s, key, settles).Success?
    ensures Fundable(StreamOf(s, key)).Success?
    ensures StreamOf(FundProtocol(s, key, settles).value, other)
            == if other == key then FundedStream(StreamOf(s, key), Fundable(StreamOf(s, key)).value)
               else StreamOf(s, other)
  {
    hide Fundable, Pull, DeliverRaw, SendNative, StreamOf;
    var st := StreamOf(s, key);
    var amount := Fundable(st).value;
    var marked := Written(s, key, FundedStream(st, amount));
    WritesOneStream(s, key, FundedStream(st, amount), other);
    PullWritesNoStream(marked, key.base, other);
    DeliveryWritesNoStream(Pull(marked, key.base), key.base.asset, amount, other);
    SendingWritesNoStream(Pull(marked, key.base), amount, other);
  }

  lemma FundableIsRest(st: Stream)
    requires Fundable(st).Success?
    ensures Forwarded(FundedStream(st, Fundable(st).value))
    ensures Forwarded(st) <==> Fundable(st).value == 0
  {
    DivBounds(st.delegatedCredit27, PRECISION);
    FloorIsUnique(st.delegatedFunded, st.delegatedCredit27 / PRECISION, st.delegatedCredit27, PRECISION);
  }

  // ---- A sealed day ----

  /**
   Sealing: a native stream that was ever credited, once, after its day, for stock and not for the native asset
   itself, if its ordinary credit makes a whole unit. Exactly those whole units leave, after what the ledger still
   owed came in.
   */
  lemma SealingPays(s: State, key: Key, asset: Address, settles: bool) returns (budget: nat)
    requires Reachable(s)
    ensures IsFloor(budget, StreamOf(s, key).totalCredit27, PRECISION)
    ensures var r, st := SealDesk(s, key, asset, settles), StreamOf(s, key);
            && (r.Success? <==>
                  && !key.base.IsRaw() && st.supply != 0 && asset != NATIVE && !st.isSealed
                  && (key.epoch + 1) * 86_400 <= s.now && 0 < budget && settles)
            && (r.Success? ==>
                  && StreamOf(r.value, key) == st.(isSealed := true, entryAsset := asset)
                  && (forall other :: other != key ==> StreamOf(r.value, other) == StreamOf(s, other))
                  && Amount(r.value.custody, NATIVE)
                     == Amount(s.custody, NATIVE) + BookAt(s, key.base).due - budget)
  {
    hide Inv, Reachable, Budget, SendNative, Pull, StreamOf;
    ReachableKeepsInv(s);
    SealKeeps(s, key, asset, settles);
    var st := StreamOf(s, key);
    budget := Budget(st);
    BudgetIsWhole(st);
    var pulled := Pull(Written(s, key, SealedStream(st, asset)), key.base);
    TransfersFailByUnderflow(pulled, NATIVE, budget);
    if SealDesk(s, key, asset, settles).Success? {
      forall other { SealEffect(s, key, asset, other); }
      SealEffect(s, key, asset, key);
      SealMoves(Written(s, key, SealedStream(st, asset)), key.base, budget);
      WritesOneStream(s, key, SealedStream(st, asset), key);
    }
  }

  lemma BudgetIsWhole(st: Stream)
    ensures IsFloor(Budget(st), st.totalCredit27, PRECISION)
  {
    DivBounds(st.totalCredit27, PRECISION);
  }

  lemma SealEffect(s: State, key: Key, asset: Address, other: Key)
    requires SealDesk(s, key, asset, true).Success?
    ensures StreamOf(SealDesk(s, key, asset, true).value, other)
            == if other == key then SealedStream(StreamOf(s, key), asset) else StreamOf(s, other)
  {
    hide Budget, Pull, SendNative, StreamOf;
    var marked := Written(s, key, SealedStream(StreamOf(s, key), asset));
    WritesOneStream(s, key, SealedStream(StreamOf(s, key), asset), other);
    PullWritesNoStream(marked, key.base, other);
    SendingWritesNoStream(Pull(marked, key.base), Budget(StreamOf(s, key)), other);
  }

  lemma SealMoves(s: State, base: Base, amount: nat)
    requires base.asset == NATIVE && SendNative(Pull(s, base), amount).Success?
    ensures Amount(SendNative(Pull(s, base), amount).value.custody, NATIVE)
            == Amount(s.custody, NATIVE) + BookAt(s, base).due - amount
  {
  }

  // ---- Bought stock ----

  /** Syncing books all that was delivered for a sealed stream, and collects all that the payout vault had ready. */
  lemma SyncingBooks(s: State, key: Key, settles: bool)
    requires Reachable(s)
    ensures var r, st := SyncPurchased(s, key, settles), StreamOf(s, key);
            && (r.Success? <==> st.isSealed && settles)
            && (r.Success? ==>
                  && StreamOf(r.value, key) == st.(purchasedRaw := st.delivered, purchasedAsset := st.entryAsset)
                  && (forall other :: other != key ==> StreamOf(r.value, other) == StreamOf(s, other))
                  && Collected(s, r.value, st.entryAsset, st.delivered - st.purchasedRaw))
  {
    hide Inv, Reachable, StreamOf, ClaimFor, Collected;
    ReachableKeepsInv(s);
    SyncKeeps(s, key, settles);
    var st := StreamOf(s, key);
    var r := SyncPurchased(s, key, settles);
    if r.Success? {
      forall other ensures StreamOf(r.value, other) == if other == key then SyncedStream(st) else StreamOf(s, other) {
        SyncEffect(s, key, other);
      }
      SyncEffect(s, key, key);
      SyncCollects(s, key);
    }
  }

  /** `bought` new units of stock on the books, and everything ready claimed into this contract. */
  ghost predicate Collected(s: State, t: State, a: Address, bought: nat) {
    && Amount(t.purchasedOutstanding, a) == Amount(s.purchasedOutstanding, a) + bought
    && Amount(t.ready, a) == 0
    && Amount(t.paidTotal, a) == Amount(s.paidTotal, a) + Amount(s.ready, a)
    && Amount(t.held, a) == Amount(s.held, a) + Amount(s.ready, a)
    && t.purchasedSpent == s.purchasedSpent && t.custody == s.custody
  }

  lemma SyncEffect(s: State, key: Key, other: Key)
    requires SyncPurchased(s, key, true).Success?
    ensures StreamOf(SyncPurchased(s, key, true).value, other)
            == if other == key then SyncedStream(StreamOf(s, key)) else StreamOf(s, other)
  {
    WritesOneStream(s, key, SyncedStream(StreamOf(s, key)), other);
  }

  lemma SyncCollects(s: State, key: Key)
    requires SyncPurchased(s, key, true).Success?
    ensures var st := StreamOf(s, key);
            && st.purchasedRaw <= st.delivered
            && Collected(s, SyncPurchased(s, key, true).value, st.entryAsset, st.delivered - st.purchasedRaw)
  {
    hide WithStream, StreamAt;
  }

  // ---- Assets ----

  /** A transaction that moves every asset and its books together. */
  ghost predicate MovesTogether(s: State, t: State) {
    forall a :: a != NATIVE ==> Unaccounted(t, a) == Unaccounted(s, a)
  }

  lemma Together(s: State, t: State, u: State)
    requires MovesTogether(s, t) && MovesTogether(t, u)
    ensures MovesTogether(s, u)
  {
    hide Unaccounted;
  }

  lemma PullMovesTogether(s: State, base: Base)
    requires base.IsRaw() || base.asset == NATIVE
    ensures MovesTogether(s, Pull(s, base))
  {
  }

  lemma DeliveriesMoveTogether(s: State, asset: Address, amount: nat)
    ensures DeliverRaw(s, asset, amount).Success? ==> MovesTogether(s, DeliverRaw(s, asset, amount).value)
    ensures DeliverStock(s, asset, amount).Success? ==> MovesTogether(s, DeliverStock(s, asset, amount).value)
    ensures SendNative(s, amount).Success? ==> MovesTogether(s, SendNative(s, amount).value)
  {
    forall a ensures DeliverRaw(s, asset, amount).Success? ==>
                       Unaccounted(DeliverRaw(s, asset, amount).value, a) == Unaccounted(s, a) {
      RawMoves(s, asset, amount, a);
    }
    forall a ensures DeliverStock(s, asset, amount).Success? ==>
                       Unaccounted(DeliverStock(s, asset, amount).value, a) == Unaccounted(s, a) {
      StockMoves(s, asset, amount, a);
    }
  }

  lemma RawMoves(s: State, asset: Address, amount: nat, a: Address)
    ensures DeliverRaw(s, asset, amount).Success? ==>
              Unaccounted(DeliverRaw(s, asset, amount).value, a) == Unaccounted(s, a)
  {
  }

  lemma StockMoves(s: State, asset: Address, amount: nat, a: Address)
    ensures DeliverStock(s, asset, amount).Success? ==>
              Unaccounted(DeliverStock(s, asset, amount).value, a) == Unaccounted(s, a)
  {
  }

  lemma PayKeyMovesTogether(s: State, id: nat, key: Key, eligible: bool, settles: bool)
    ensures var r := PayKey(s, id, key, eligible, settles); r.Success? ==> MovesTogether(s, r.value)
  {
    hide Claimable, Pull, DeliverRaw, DeliverStock, MovesTogether;
    var st := StreamOf(s, key);
    var r := PayKey(s, id, key, eligible, settles);
    if r.Success? {
      var amount := Claimable(st, key.base.IsRaw(), id).value;
      var marked := MarkPaid(s, id, key, amount);
      var pulled := Pull(marked, key.base);
      SameAssets(s, marked);
      SameAssets(s, s);
      PullMovesTogether(marked, key.base);
      DeliveriesMoveTogether(pulled, key.base.asset, amount);
      DeliveriesMoveTogether(pulled, st.purchasedAsset, amount);
      Together(s, marked, pulled);
      if amount != 0 {
        Together(s, pulled, r.value);
      }
    }
  }

  lemma SameAssets(s: State, t: State)
    requires t.held == s.held && t.custody == s.custody
    requires t.paidTotal == s.paidTotal && t.purchasedSpent == s.purchasedSpent
    ensures MovesTogether(s, t)
  {
  }

  lemma {:induction false} PayKeysMoveTogether(s: State, id: nat, keys: seq<Key>, eligible: bool, settles: bool)
    ensures var r := PayKeys(s, id, keys, eligible, settles); r.Success? ==> MovesTogether(s, r.value)
    decreases |keys|
  {
    hide PayKey, MovesTogether;
    var r := PayKeys(s, id, keys, eligible, settles);
    if r.Success? {
      if keys == [] {
        SameAssets(s, s);
      } else {
        var one := PayKey(s, id, keys[0], eligible, settles).value;
        PayKeyMovesTogether(s, id, keys[0], eligible, settles);
        PayKeysMoveTogether(one, id, keys[1..], eligible, settles);
        Together(s, one, r.value);
      }
    }
  }

  lemma FeesMoveNothing(s: State, base: Base, amount: nat)
    ensures CreditFee(s, base, amount).Success? ==> MovesTogether(s, CreditFee(s, base, amount).value)
  {
    hide CreditFee, MovesTogether;
    CreditWritesBooks(s, base, amount);
    if CreditFee(s, base, amount).Success? {
      SameAssets(s, CreditFee(s, base, amount).value);
    }
  }

  lemma IncomeMovesTogether(s: State, base: Base, amount: nat, raw: bool)
    requires raw || base.asset == NATIVE
    ensures var s1 := s.(custody := Plus(s.custody, base.asset, amount),
                         held := if raw then Plus(s.held, base.asset, amount) else s.held);
            var r := CreditFee(s1, base, amount);
            r.Success? ==> MovesTogether(s, r.value)
  {
    hide CreditFee;
    var s1 := s.(custody := Plus(s.custody, base.asset, amount),
                 held := if raw then Plus(s.held, base.asset, amount) else s.held);
    FeesMoveNothing(s1, base, amount);
    assert MovesTogether(s, s1);
    if CreditFee(s1, base, amount).Success? {
      Together(s, s1, CreditFee(s1, base, amount).value);
    }
  }

  /** What transfers in without a call leave until the royalty is recognised. */
  function Unasked(s: State, op: Op, a: Address): int {
    if op.OpTransferIn? && op.asset == a then op.amount
    else if op.OpSyncRoyalty? && op.asset == a && Attempt(s, op).Success? then -Unaccounted(s, a)
    else 0
  }

  /**
   No asset moves without its books. Beyond custody and unspent bought stock this contract holds what was sent to it
   unasked: every fee, payout, forwarding, collection and sale of stock moves balance and books by the same amount,
   and recognising a royalty books the whole difference.
   */
  lemma AssetsMoveWithTheirBooks(s: State, op: Op, a: Address)
    requires Inv(s) && a != NATIVE
    ensures Unaccounted(Step(s, op), a) == Unaccounted(s, a) + Unasked(s, op, a)
    ensures 0 <= Unaccounted(s, a)
  {
    hide CreditFee, PayKeys, FundProtocol, SealDesk, SyncPurchased, ReceiveNative, MintAndCredit, N.Mint, Unaccounted,
      N.MintProtocol, N.GrantSponsored, N.Transfer, N.ConfigureProtocolVault, N.SetMintCap, Inv, SyncRoyalty,
      DepositRoyalty, OnFeeCredit, ClaimFor, Deliver, LiftNFT;
    NothingMissing(s, a);
    match op
    case OpMint(count, to, payment) => MintMovesTogether(s, N.Mint(s.nft, count, to, payment), payment.fee);
    case OpMintProtocol(caller, count, payment) =>
      MintMovesTogether(s, N.MintProtocol(s.nft, caller, count, payment), payment.fee);
    case OpGrantSponsored(isGov, recipient, consented, payment) =>
      MintMovesTogether(s, N.GrantSponsored(s.nft, isGov, recipient, consented, payment), payment.fee);
    case OpFeeCredit(base, amount) => FeeCreditMovesTogether(s, base, amount);
    case OpNativeRoyalty(amount) => NativeMovesTogether(s, Royalty, amount);
    case OpDepositRoyalty(asset, raw) => DepositMovesTogether(s, asset, raw);
    case OpSyncRoyalty(asset) => RecognisingBooksAll(s, asset, a);
    case OpPay(id, keys, eligible, settles) => PayKeysMoveTogether(s, id, keys, eligible, settles);
    case OpFundProtocol(key, settles) => FundingMovesTogether(s, key, settles);
    case OpSealDesk(key, asset, settles) => SealingMovesTogether(s, key, asset, settles);
    case OpDeliver(key, amount) => DeliveryMovesNothing(s, key, amount);
    case OpClaimFor(asset) => ClaimMovesTogether(s, asset);
    case OpSyncPurchased(key, settles) => SyncMovesTogether(s, key, settles);
    case OpTransferIn(asset, amount) => TransferInMoves(s, asset, amount, a);
    case OpTransfer(from, to, id, authorized, eligible) =>
      CardsMoveNothing(s, N.Transfer(s.nft, from, to, id, authorized, eligible));
    case OpConfigureVault(isGov, vault) => CardsMoveNothing(s, N.ConfigureProtocolVault(s.nft, isGov, vault));
    case OpSetMintCap(isGov, cap) => CardsMoveNothing(s, N.SetMintCap(s.nft, isGov, cap));
    case OpConfigureStaking => SameAssets(s, s.(protocolStaking := true));
    case OpWait(seconds) => SameAssets(s, s.(now := s.now + seconds));
  }

  lemma NothingMissing(s: State, a: Address)
    requires Inv(s) && a != NATIVE
    ensures 0 <= Unaccounted(s, a)
  {
    hide N.Inv, BooksInv, CustodyInv, StockInv;
  }

  lemma MintMovesTogether(s: State, r: Result<N.State, N.Error>, fee: nat)
    ensures MintAndCredit(s, r, fee).Success? ==> MovesTogether(s, MintAndCredit(s, r, fee).value)
  {
    hide ReceiveNative, MovesTogether;
    if MintAndCredit(s, r, fee).Success? {
      var minted := s.(nft := r.value);
      SameAssets(s, minted);
      NativeMovesTogether(minted, Surcharge, N.Surcharge(fee));
      Together(s, minted, MintAndCredit(s, r, fee).value);
    }
  }

  lemma NativeMovesTogether(s: State, source: Source, amount: nat)
    ensures ReceiveNative(s, source, amount).Success? ==> MovesTogether(s, ReceiveNative(s, source, amount).value)
  {
    hide CreditFee, MovesTogether;
    IncomeMovesTogether(s, Base(source, NATIVE), amount, false);
  }

  lemma FeeCreditMovesTogether(s: State, base: Base, amount: nat)
    ensures OnFeeCredit(s, base, amount).Success? ==> MovesTogether(s, OnFeeCredit(s, base, amount).value)
  {
    hide CreditFee, MovesTogether;
    var b := BookAt(s, base);
    var owed := WithBook(s, b.(base := base, due := b.due + amount));
    if OnFeeCredit(s, base, amount).Success? {
      SameAssets(s, owed);
      FeesMoveNothing(owed, base, amount);
      Together(s, owed, OnFeeCredit(s, base, amount).value);
    }
  }

  lemma DepositMovesTogether(s: State, asset: Address, raw: nat)
    ensures DepositRoyalty(s, asset, raw).Success? ==> MovesTogether(s, DepositRoyalty(s, asset, raw).value)
  {
    hide CreditFee, MovesTogether;
    IncomeMovesTogether(s, Base(Royalty, asset), raw, true);
  }

  lemma RecognisingBooksAll(s: State, asset: Address, a: Address)
    ensures var r := SyncRoyalty(s, asset);
            r.Success? ==> Unaccounted(r.value, a) == if a == asset then 0 else Unaccounted(s, a)
  {
    hide CreditFee;
    var raw := Unaccounted(s, asset);
    if SyncRoyalty(s, asset).Success? {
      CreditWritesBooks(s.(custody := Plus(s.custody, asset, raw)), Base(Royalty, asset), raw);
    }
  }

  lemma CreditWritesBooks(s: State, base: Base, amount: nat)
    ensures var r := CreditFee(s, base, amount); r.Success? ==> r.value == s.(books := r.value.books)
  {
    hide Credit;
  }

  lemma FundingMovesTogether(s: State, key: Key, settles: bool)
    ensures FundProtocol(s, key, settles).Success? ==> MovesTogether(s, FundProtocol(s, key, settles).value)
  {
    hide Fundable, Pull, DeliverRaw, SendNative, MovesTogether;
    var r := FundProtocol(s, key, settles);
    if r.Success? {
      var amount := Fundable(StreamOf(s, key)).value;
      var marked := MarkFunded(s, key, amount);
      var pulled := Pull(marked, key.base);
      SameAssets(s, s);
      SameAssets(s, marked);
      PullMovesTogether(marked, key.base);
      DeliveriesMoveTogether(pulled, key.base.asset, amount);
      Together(s, marked, pulled);
      if amount != 0 {
        Together(s, pulled, r.value);
      }
    }
  }

  lemma SealingMovesTogether(s: State, key: Key, asset: Address, settles: bool)
    ensures SealDesk(s, key, asset, settles).Success? ==> MovesTogether(s, SealDesk(s, key, asset, settles).value)
  {
    hide Budget, Pull, SendNative, MovesTogether;
    var r := SealDesk(s, key, asset, settles);
    if r.Success? {
      var marked := Written(s, key, SealedStream(StreamOf(s, key), asset));
      var pulled := Pull(marked, key.base);
      SameAssets(s, marked);
      PullMovesTogether(marked, key.base);
      DeliveriesMoveTogether(pulled, NATIVE, Budget(StreamOf(s, key)));
      Together(s, marked, pulled);
      Together(s, pulled, r.value);
    }
  }

  lemma DeliveryMovesNothing(s: State, key: Key, amount: nat)
    ensures Deliver(s, key, amount).Success? ==> MovesTogether(s, Deliver(s, key, amount).value)
  {
    hide MovesTogether;
    if Deliver(s, key, amount).Success? {
      SameAssets(s, Deliver(s, key, amount).value);
    }
  }

  lemma ClaimMovesTogether(s: State, asset: Address)
    ensures MovesTogether(s, ClaimFor(s, asset))
  {
  }

  lemma SyncMovesTogether(s: State, key: Key, settles: bool)
    ensures SyncPurchased(s, key, settles).Success? ==> MovesTogether(s, SyncPurchased(s, key, settles).value)
  {
    hide ClaimFor, MovesTogether;
    var r := SyncPurchased(s, key, settles);
    if r.Success? {
      var claimed := ClaimFor(s, StreamOf(s, key).entryAsset);
      ClaimMovesTogether(s, StreamOf(s, key).entryAsset);
      SameAssets(claimed, r.value);
      Together(s, claimed, r.value);
    }
  }

  lemma TransferInMoves(s: State, asset: Address, amount: nat, a: Address)
    ensures Unaccounted(s.(held := Plus(s.held, asset, amount)), a)
            == Unaccounted(s, a) + (if asset == a then amount else 0)
  {
  }

  lemma CardsMoveNothing(s: State, r: Result<N.State, N.Error>)
    ensures LiftNFT(s, r).Success? ==> MovesTogether(s, LiftNFT(s, r).value)
  {
    hide MovesTogether;
    if r.Success? {
      SameAssets(s, s.(nft := r.value));
    }
  }

  // ---- Income ----

  /** Nothing, or a fee with a card to credit and, once the vault holds cards, its staking in place. */
  predicate Takes(s: State, amount: int) {
    amount == 0 || (0 < N.TotalSupply(s.nft) && (s.nft.protocolMinted == 0 || s.protocolStaking))
  }

  /** Which income is taken: pool fees from the ledger, native income, and royalties in the listed assets. */
  lemma IncomeIsTaken(s: State, base: Base, amount: nat, asset: Address)
    requires Inv(s)
    ensures OnFeeCredit(s, base, amount).Success? <==> base.source.Pool? && Takes(s, amount)
    ensures ReceiveNative(s, base.source, amount).Success? <==> Takes(s, amount)
    ensures DepositRoyalty(s, asset, amount).Success? <==>
              asset in s.royaltyAssets && amount != 0 && Takes(s, amount)
    ensures SyncRoyalty(s, asset).Success? <==> asset in s.royaltyAssets && Takes(s, Unaccounted(s, asset))
  {
    hide Inv, N.Inv, OnFeeCredit, ReceiveNative, DepositRoyalty, SyncRoyalty, Takes, Unaccounted;
    CardsAreValid(s);
    PoolFeesAreTaken(s, base, amount);
    NativeIsTaken(s, base.source, amount);
    DepositsAreTaken(s, asset, amount);
    SyncIsTaken(s, asset);
  }

  lemma PoolFeesAreTaken(s: State, base: Base, amount: nat)
    requires N.Inv(s.nft)
    ensures OnFeeCredit(s, base, amount).Success? <==> base.source.Pool? && Takes(s, amount)
  {
    hide N.Inv, CreditFee;
    var b := BookAt(s, base);
    CreditIsTaken(WithBook(s, b.(base := base, due := b.due + amount)), base, amount);
  }

  lemma NativeIsTaken(s: State, source: Source, amount: nat)
    requires N.Inv(s.nft)
    ensures ReceiveNative(s, source, amount).Success? <==> Takes(s, amount)
  {
    hide N.Inv, CreditFee;
    CreditIsTaken(s.(custody := Plus(s.custody, NATIVE, amount)), Base(source, NATIVE), amount);
  }

  lemma DepositsAreTaken(s: State, asset: Address, raw: nat)
    requires N.Inv(s.nft)
    ensures DepositRoyalty(s, asset, raw).Success? <==> asset in s.royaltyAssets && raw != 0 && Takes(s, raw)
  {
    hide N.Inv, CreditFee;
    CreditIsTaken(s.(custody := Plus(s.custody, asset, raw), held := Plus(s.held, asset, raw)),
                  Base(Royalty, asset), raw);
  }

  lemma SyncIsTaken(s: State, asset: Address)
    requires Inv(s)
    ensures SyncRoyalty(s, asset).Success? <==> asset in s.royaltyAssets && Takes(s, Unaccounted(s, asset))
  {
    hide Inv, N.Inv, CreditFee;
    if asset in s.royaltyAssets {
      CardsAreValid(s);
      RoyaltyNeverUnderflows(s, asset);
      var raw := Unaccounted(s, asset);
      CreditIsTaken(s.(custody := Plus(s.custody, asset, raw)), Base(Royalty, asset), raw);
    }
  }

  lemma CreditIsTaken(s: State, base: Base, amount: nat)
    requires N.Inv(s.nft)
    ensures CreditFee(s, base, amount).Success? <==> Takes(s, amount)
  {
    hide Credit;
    VaultWithinCards(s.nft);
  }
}
