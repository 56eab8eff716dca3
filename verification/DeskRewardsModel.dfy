/**
 src/v3/DeskRewards.sol with src/v3/DeskNFT.sol in front of it: fees are credited to cards through the ledger of
 DeskLedgerModel and paid out, per card, in raw assets or in stock bought with a sealed day's native budget.
 */
module DeskRewardsModel {
  import opened Balances
  import opened FloorMath
  import opened Outcomes
  import opened DeskLedgerModel
  import N = DeskNFTModel

  const DAY: nat := 86_400
  const MAX_KEYS: nat := 20

  datatype Key = Key(base: Base, epoch: nat)

  /**
   Storage of both contracts, then the chain around them. `custody` is `rawCustody`, with this contract's native
   balance under NATIVE; `held` is its balance of each ERC-20; `ready` and `paidTotal` are the payout vault's
   debt to it and payments so far.
   */
  datatype State = State(
    nft: N.State, books: map<Base, Book>, custody: map<Address, nat>,
    purchasedOutstanding: map<Address, nat>, purchasedSpent: map<Address, nat>,
    royaltyAssets: set<Address>, protocolStaking: bool,
    held: map<Address, nat>, ready: map<Address, nat>, paidTotal: map<Address, nat>, now: nat
  )

  datatype Error =
    | FirstDeskRequired | ProtocolStakingMissing | LedgerOnly | StockRoyaltyAsset | Claim | ProtocolDelegated
    | DeliveryEligibility | Settlement | NoStream | NotEntry | Seal | EmptyBudget | PurchaseCoverage
    | AlreadyConfigured | Underflow | NFT(why: N.Error)

  function Deployed(royaltyAssets: set<Address>, now: nat): State {
    State(N.Deployed(), map[], map[], map[], map[], royaltyAssets, false, map[], map[], map[], now)
  }

  function Today(s: State): nat {
    s.now / DAY
  }

  function BookAt(s: State, base: Base): Book {
    if base in s.books then s.books[base] else NewBook(base)
  }

  function StreamOf(s: State, key: Key): Stream {
    StreamAt(BookAt(s, key.base), key.epoch)
  }

  function WithBook(s: State, b: Book): State {
    s.(books := s.books[b.base := b])
  }

  function WithStream(b: Book, epoch: nat, st: Stream): Book {
    b.(streams := b.streams[epoch := st])
  }

  // ---- Fees in ----

  /** _credit. */
  function CreditFee(s: State, base: Base, amount: nat): Result<State, Error> {
    if amount == 0 then Success(s)
    else
      var n, np := N.TotalSupply(s.nft), s.nft.protocolMinted;
      var _ :- Require(0 < n, FirstDeskRequired);
      var _ :- Require(np <= n, Underflow);
      var _ :- Require(np == 0 || s.protocolStaking, ProtocolStakingMissing);
      Success(WithBook(s, Credit(BookAt(s, base).(base := base), Today(s), n, np, amount)))
  }

  /** onFeeCredit: the ledger credits exactly what it adds to this contract's bucket. */
  function OnFeeCredit(s: State, base: Base, amount: nat): Result<State, Error> {
    var _ :- Require(base.source.Pool?, LedgerOnly);
    var b := BookAt(s, base);
    CreditFee(WithBook(s, b.(base := base, due := b.due + amount)), base, amount)
  }

  /** Native royalties, and the part of a mint's surcharge that comes here. */
  function ReceiveNative(s: State, source: Source, amount: nat): Result<State, Error> {
    CreditFee(s.(custody := Plus(s.custody, NATIVE, amount)), Base(source, NATIVE), amount)
  }

  function RecognizeRoyalty(s: State, asset: Address, raw: nat): Result<State, Error> {
    CreditFee(s.(custody := Plus(s.custody, asset, raw)), Base(Royalty, asset), raw)
  }

  function DepositRoyalty(s: State, asset: Address, raw: nat): Result<State, Error> {
    var _ :- Require(asset in s.royaltyAssets && raw != 0, StockRoyaltyAsset);
    RecognizeRoyalty(s.(held := Plus(s.held, asset, raw)), asset, raw)
  }

  /** syncRoyalty: what arrived unasked is royalty; ledger backing and bought stock are not. */
  function SyncRoyalty(s: State, asset: Address): Result<State, Error> {
    var _ :- Require(asset in s.royaltyAssets, StockRoyaltyAsset);
    var _ :- Require(Amount(s.purchasedSpent, asset) <= Amount(s.paidTotal, asset), Underflow);
    var purchased := Amount(s.paidTotal, asset) - Amount(s.purchasedSpent, asset);
    var _ :- Require(Amount(s.custody, asset) + purchased <= Amount(s.held, asset), Underflow);
    RecognizeRoyalty(s, asset, Amount(s.held, asset) - Amount(s.custody, asset) - purchased)
  }

  // ---- Payouts ----

  /** _pull: collects what the ledger still owes for this base. */
  function Pull(s: State, base: Base): State {
    var b := BookAt(s, base);
    if b.due == 0 then s
    else
      WithBook(s, b.(base := base, due := 0)).(
        custody := Plus(s.custody, base.asset, b.due),
        held := if base.IsRaw() then Plus(s.held, base.asset, b.due) else s.held)
  }

  /** What a card with `credit` of credit27 may have received of a stream so far. */
  function Owed(st: Stream, isRaw: bool, credit: nat): nat {
    if isRaw then DivBounds(credit, PRECISION); credit / PRECISION
    else if st.totalCredit27 == 0 then 0
    else MulDiv(credit, st.purchasedRaw, st.totalCredit27)
  }

  /** claimable. */
  function Claimable(st: Stream, isRaw: bool, id: nat): Result<nat, Error> {
    var credit := Credit27(st, id);
    var _ :- Require(0 <= credit, Underflow);
    var owed := Owed(st, isRaw, credit);
    var _ :- Require(Amount(st.paidRaw, id) <= owed, Underflow);
    Success(owed - Amount(st.paidRaw, id))
  }

  /** The transfer of `amount` of a raw stream's asset out of custody. */
  function DeliverRaw(s: State, asset: Address, amount: nat): Result<State, Error> {
    var custody :- Minus(s.custody, asset, amount, Underflow);
    var held :- Minus(s.held, asset, amount, Underflow);
    Success(s.(custody := custody, held := held))
  }

  /** The transfer of `amount` of bought stock. */
  function DeliverStock(s: State, asset: Address, amount: nat): Result<State, Error> {
    var outstanding :- Minus(s.purchasedOutstanding, asset, amount, Underflow);
    var held :- Minus(s.held, asset, amount, Underflow);
    Success(s.(purchasedOutstanding := outstanding, purchasedSpent := Plus(s.purchasedSpent, asset, amount),
               held := held))
  }

  function MarkPaid(s: State, id: nat, key: Key, amount: nat): State {
    var b, st := BookAt(s, key.base), StreamOf(s, key);
    var paid := st.(paidRaw := st.paidRaw[id := Amount(st.paidRaw, id) + amount]);
    WithBook(s, WithStream(b, key.epoch, paid).(base := key.base))
  }

  /** One round of the loop in `pay`. `settles` is whether the ledger and the token carry out their transfers. */
  function PayKey(s: State, id: nat, key: Key, eligible: bool, settles: bool): Result<State, Error> {
    var st := StreamOf(s, key);
    var amount :- Claimable(st, key.base.IsRaw(), id);
    if amount == 0 then Success(s)
    else
      var _ :- Require(eligible, DeliveryEligibility);
      var _ :- Require(settles, Settlement);
      var pulled := Pull(MarkPaid(s, id, key, amount), key.base);
      if key.base.IsRaw() then DeliverRaw(pulled, key.base.asset, amount)
      else DeliverStock(pulled, st.purchasedAsset, amount)
  }

  function PayKeys(s: State, id: nat, keys: seq<Key>, eligible: bool, settles: bool): Result<State, Error>
    decreases |keys|
  {
    if keys == [] then Success(s)
    else
      var paid :- PayKey(s, id, keys[0], eligible, settles);
      PayKeys(paid, id, keys[1..], eligible, settles)
  }

  /** pay, which DeskNFT calls for an existing card whose owner is not the protocol vault. */
  function Pay(s: State, id: nat, keys: seq<Key>, eligible: bool, settles: bool): Result<State, Error> {
    var _ :- Require(id in s.nft.owner && |keys| <= MAX_KEYS, Claim);
    var _ :- Require(s.nft.owner[id] != s.nft.protocolVault, ProtocolDelegated);
    PayKeys(s, id, keys, eligible, settles)
  }

  /** What the vault's cards earned of a stream in whole units and was not yet forwarded. */
  function Fundable(st: Stream): Result<nat, Error> {
    DivBounds(st.delegatedCredit27, PRECISION);
    var whole := st.delegatedCredit27 / PRECISION;
    var _ :- Require(st.delegatedFunded <= whole, Underflow);
    Success(whole - st.delegatedFunded)
  }

  function MarkFunded(s: State, key: Key, amount: nat): State {
    var b, st := BookAt(s, key.base), StreamOf(s, key);
    WithBook(s, WithStream(b, key.epoch, st.(delegatedFunded := st.delegatedFunded + amount)).(base := key.base))
  }

  /** The native leg leaves this contract's balance. */
  function SendNative(s: State, amount: nat): Result<State, Error> {
    var custody :- Minus(s.custody, NATIVE, amount, Underflow);
    Success(s.(custody := custody))
  }

  /** fundProtocolDeskBudget and forwardProtocolDesk. */
  function FundProtocol(s: State, key: Key, settles: bool): Result<State, Error> {
    var st := StreamOf(s, key);
    var _ :- Require(st.supply != 0, NoStream);
    var amount :- Fundable(st);
    if amount == 0 then Success(s)
    else
      var _ :- Require(settles, Settlement);
      var pulled := Pull(MarkFunded(s, key, amount), key.base);
      if key.base.IsRaw() then DeliverRaw(pulled, key.base.asset, amount) else SendNative(pulled, amount)
  }

  function Budget(st: Stream): nat {
    DivBounds(st.totalCredit27, PRECISION);
    st.totalCredit27 / PRECISION
  }

  /** sealDesk, called through the stream's entry source when its day is over; `asset` is what will be bought. */
  function SealDesk(s: State, key: Key, asset: Address, settles: bool): Result<State, Error> {
    var b, st := BookAt(s, key.base), StreamOf(s, key);
    var _ :- Require(!key.base.IsRaw() && st.supply != 0 && asset != NATIVE, NotEntry);
    var _ :- Require(!st.isSealed && (key.epoch + 1) * DAY <= s.now, Seal);
    var _ :- Require(0 < Budget(st), EmptyBudget);
    var _ :- Require(settles, Settlement);
    var marked := WithBook(s, WithStream(b, key.epoch, st.(isSealed := true, entryAsset := asset)).(base := key.base));
    SendNative(Pull(marked, key.base), Budget(st))
  }

  // ---- Bought stock ----

  /** The round manager records stock bought for a sealed stream and stages it for this contract. */
  function Deliver(s: State, key: Key, amount: nat): Result<State, Error> {
    var b, st := BookAt(s, key.base), StreamOf(s, key);
    var _ :- Require(st.isSealed, NotEntry);
    Success(WithBook(s, WithStream(b, key.epoch, st.(delivered := st.delivered + amount)).(base := key.base)).(
              ready := Plus(s.ready, st.entryAsset, amount)))
  }

  /** The payout vault pays this contract all it has ready. */
  function ClaimFor(s: State, asset: Address): State {
    var amount := Amount(s.ready, asset);
    s.(ready := s.ready[asset := 0], paidTotal := Plus(s.paidTotal, asset, amount), held := Plus(s.held, asset, amount))
  }

  function SyncPurchased(s: State, key: Key, settles: bool): Result<State, Error> {
    var st := StreamOf(s, key);
    var _ :- Require(st.isSealed, NotEntry);
    var _ :- Require(settles, Settlement);
    var claimed := ClaimFor(s, st.entryAsset);
    var _ :- Require(st.purchasedRaw <= st.delivered, Underflow);
    var b := BookAt(s, key.base);
    var synced := st.(purchasedRaw := st.delivered, purchasedAsset := st.entryAsset);
    var s' := WithBook(claimed, WithStream(b, key.epoch, synced).(base := key.base)).(
      purchasedOutstanding := Plus(s.purchasedOutstanding, st.entryAsset, st.delivered - st.purchasedRaw));
    var _ :- Require(Amount(s'.purchasedOutstanding, st.entryAsset) <= Amount(s'.held, st.entryAsset),
                     PurchaseCoverage);
    Success(s')
  }

  // ---- Runs ----

  function LiftNFT(s: State, r: Result<N.State, N.Error>): Result<State, Error> {
    match r
    case Success(nft) => Success(s.(nft := nft))
    case Failure(e) => Failure(NFT(e))
  }

  /** A mint and the surcharge it sends here, in one transaction. */
  function MintAndCredit(s: State, r: Result<N.State, N.Error>, fee: nat): Result<State, Error> {
    var minted :- LiftNFT(s, r);
    ReceiveNative(minted, Surcharge, N.Surcharge(fee))
  }

  /** Everything that can touch the two contracts, the fee ledger's bucket and the payout vault's debt. */
  datatype Op =
    | OpMint(count: nat, to: Address, payment: N.Payment)
    | OpMintProtocol(caller: Address, count: nat, payment: N.Payment)
    | OpGrantSponsored(isGovernance: bool, recipient: Address, consented: bool, payment: N.Payment)
    | OpTransfer(from: Address, to: Address, id: nat, authorized: bool, eligible: bool)
    | OpConfigureVault(isGovernance: bool, vault: Address)
    | OpSetMintCap(isGovernance: bool, cap: nat)
    | OpConfigureStaking
    | OpFeeCredit(base: Base, amount: nat)
    | OpNativeRoyalty(amount: nat)
    | OpDepositRoyalty(asset: Address, raw: nat)
    | OpSyncRoyalty(asset: Address)
    | OpPay(id: nat, keys: seq<Key>, eligible: bool, settles: bool)
    | OpFundProtocol(key: Key, settles: bool)
    | OpSealDesk(key: Key, asset: Address, settles: bool)
    | OpDeliver(key: Key, amount: nat)
    | OpClaimFor(asset: Address)
    | OpSyncPurchased(key: Key, settles: bool)
    | OpTransferIn(asset: Address, amount: nat)
    | OpWait(seconds: nat)

  function Attempt(s: State, op: Op): Result<State, Error> {
    match op
    case OpMint(count, to, payment) => MintAndCredit(s, N.Mint(s.nft, count, to, payment), payment.fee)
    case OpMintProtocol(caller, count, payment) =>
      MintAndCredit(s, N.MintProtocol(s.nft, caller, count, payment), payment.fee)
    case OpGrantSponsored(isGov, recipient, consented, payment) =>
      MintAndCredit(s, N.GrantSponsored(s.nft, isGov, recipient, consented, payment), payment.fee)
    case OpTransfer(from, to, id, authorized, eligible) =>
      LiftNFT(s, N.Transfer(s.nft, from, to, id, authorized, eligible))
    case OpConfigureVault(isGov, vault) => LiftNFT(s, N.ConfigureProtocolVault(s.nft, isGov, vault))
    case OpSetMintCap(isGov, cap) => LiftNFT(s, N.SetMintCap(s.nft, isGov, cap))
    case OpConfigureStaking =>
      var _ :- Require(!s.protocolStaking, AlreadyConfigured); Success(s.(protocolStaking := true))
    case OpFeeCredit(base, amount) => OnFeeCredit(s, base, amount)
    case OpNativeRoyalty(amount) => ReceiveNative(s, Royalty, amount)
    case OpDepositRoyalty(asset, raw) => DepositRoyalty(s, asset, raw)
    case OpSyncRoyalty(asset) => SyncRoyalty(s, asset)
    case OpPay(id, keys, eligible, settles) => Pay(s, id, keys, eligible, settles)
    case OpFundProtocol(key, settles) => FundProtocol(s, key, settles)
    case OpSealDesk(key, asset, settles) => SealDesk(s, key, asset, settles)
    case OpDeliver(key, amount) => Deliver(s, key, amount)
    case OpClaimFor(asset) => Success(ClaimFor(s, asset))
    case OpSyncPurchased(key, settles) => SyncPurchased(s, key, settles)
    case OpTransferIn(asset, amount) => Success(s.(held := Plus(s.held, asset, amount)))
    case OpWait(seconds) => Success(s.(now := s.now + seconds))
  }

  function Step(s: State, op: Op): State {
    var r := Attempt(s, op);
    if r.Success? then r.value else s
  }

  function Run(s: State, ops: seq<Op>): State
    decreases |ops|
  {
    if ops == [] then s else Run(Step(s, ops[0]), ops[1..])
  }
}
