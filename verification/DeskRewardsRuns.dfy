/** What every run of DeskRewards and DeskNFT keeps, and what the cards can therefore rely on. */
module DeskRewardsRuns {
  import opened Balances
  import opened FloorMath
  import opened MapSums
  import opened Outcomes
  import opened DeskLedgerModel
  import opened DeskLedgerRuns
  import opened DeskPayouts
  import opened DeskRewardsModel
  import N = DeskNFTModel

  // ---- The invariant ----

  /** A book's claim on the custody of its asset: received, not given out and not still at the ledger. */
  ghost function ShareOf(a: Address): Book -> int {
    (b: Book) => if b.base.asset == a then TotalReceived(b) - TotalDrawn(b) - b.due else 0
  }

  /** A total over the streams of a book. */
  ghost function Over(f: Stream -> int): Book -> int {
    (b: Book) => Sum(b.streams, f)
  }

  /** Stock of asset `a` bought for a stream and synced; the part of it not yet paid to cards; all of it delivered. */
  function SyncedOf(a: Address): Stream -> int {
    (st: Stream) => if st.isSealed && st.entryAsset == a then st.purchasedRaw else 0
  }

  ghost function UnpaidOf(a: Address): Stream -> int {
    (st: Stream) => if st.isSealed && st.entryAsset == a then st.purchasedRaw - PaidSum(st) else 0
  }

  function DeliveredOf(a: Address): Stream -> int {
    (st: Stream) => if st.isSealed && st.entryAsset == a then st.delivered else 0
  }

  ghost predicate BooksInv(books: map<Base, Book>, vault: set<nat>, cards: nat, today: nat) {
    forall base <- books ::
      books[base].base == base && BookInv(books[base], vault, cards) && Dated(books[base], today)
  }

  /** Custody of every asset is exactly what the books have a claim to. */
  ghost predicate CustodyInv(books: map<Base, Book>, custody: map<Address, nat>) {
    forall a :: Amount(custody, a) == Sum(books, ShareOf(a))
  }

  /** Bought stock: outstanding is what is unpaid, and everything synced was received from the payout vault. */
  ghost predicate StockInv(books: map<Base, Book>, outstanding: map<Address, nat>, spent: map<Address, nat>,
                           ready: map<Address, nat>, paidTotal: map<Address, nat>)
  {
    forall a ::
      && Amount(outstanding, a) == Sum(books, Over(UnpaidOf(a)))
      && Amount(outstanding, a) + Amount(spent, a) == Sum(books, Over(SyncedOf(a))) <= Amount(paidTotal, a)
      && Amount(paidTotal, a) + Amount(ready, a) == Sum(books, Over(DeliveredOf(a)))
  }

  /** The ERC-20 balance covers custody and bought stock together. */
  ghost predicate HeldInv(s: State) {
    forall a :: a != NATIVE ==>
      Amount(s.custody, a) + Amount(s.paidTotal, a) <= Amount(s.held, a) + Amount(s.purchasedSpent, a)
  }

  ghost predicate Inv(s: State) {
    && N.Inv(s.nft) && NATIVE !in s.royaltyAssets
    && BooksInv(s.books, N.VaultIds(s.nft), N.TotalSupply(s.nft), Today(s))
    && CustodyInv(s.books, s.custody)
    && StockInv(s.books, s.purchasedOutstanding, s.purchasedSpent, s.ready, s.paidTotal)
    && HeldInv(s)
  }

  // ---- Replacing one book ----

  lemma ReplaceShare(s: State, b: Book, a: Address)
    ensures Sum(s.books[b.base := b], ShareOf(a))
            == Sum(s.books, ShareOf(a)) - ShareOf(a)(BookAt(s, b.base)) + ShareOf(a)(b)
  {
    SumUpdate(s.books, b.base, b, ShareOf(a));
  }

  lemma ReplaceOver(s: State, b: Book, f: Stream -> int)
    ensures Sum(s.books[b.base := b], Over(f))
            == Sum(s.books, Over(f)) - Sum(BookAt(s, b.base).streams, f) + Sum(b.streams, f)
  {
    SumUpdate(s.books, b.base, b, Over(f));
  }

  lemma NewBookInv(base: Base, vault: set<nat>, cards: nat, today: nat)
    ensures BookInv(NewBook(base), vault, cards) && Dated(NewBook(base), today)
  {
  }

  /** The book of a base, present or not, as the invariant describes it. */
  lemma BookOf(s: State, base: Base)
    requires Inv(s)
    ensures var b := BookAt(s, base);
            b.base == base && BookInv(b, N.VaultIds(s.nft), N.TotalSupply(s.nft)) && Dated(b, Today(s))
  {
    NewBookInv(base, N.VaultIds(s.nft), N.TotalSupply(s.nft), Today(s));
  }

  /** Any stream, present or not, has ordered generations and agrees with the eager ledger. */
  lemma StreamIsShaped(s: State, key: Key)
    requires Inv(s)
    ensures StreamShape(StreamOf(s, key))
  {
    hide N.Inv, CustodyInv, StockInv, HeldInv, Refines, Conserves, Sides, PaidInv;
    BookOf(s, key.base);
  }

  lemma StreamIsEager(s: State, key: Key, id: nat)
    requires Inv(s) && 0 < id
    ensures var b := BookAt(s, key.base);
            Countable(b.log) && Credit27(StreamOf(s, key), id) == EagerShare(EagerOf(b.log), key.epoch, id)
  {
    hide N.Inv, CustodyInv, StockInv, HeldInv, StreamsInv, BookShape, Conserves;
    BookOf(s, key.base);
  }

  // ---- Fees ----

  lemma VaultWithinCards(nft: N.State)
    requires N.Inv(nft)
    ensures |N.VaultIds(nft)| == nft.protocolMinted <= N.TotalSupply(nft)
    ensures forall id <- N.VaultIds(nft) :: 1 <= id <= N.TotalSupply(nft)
  {
    SideCountIsCardinality(N.VaultIds(nft), N.TotalSupply(nft));
  }

  /** The credited book, when `b.due` may already include `amount`. */
  lemma CreditedBook(b: Book, today: nat, cards: nat, vault: set<nat>, amount: nat)
    requires Ledgered(b, cards) && StreamsInv(b, vault, cards) && Dated(b, today)
    requires 0 < cards && |vault| <= cards && forall id <- vault :: 1 <= id <= cards
    requires b.due + TotalDrawn(b) <= TotalReceived(b) + amount
    ensures var b' := Credit(b, today, cards, |vault|, amount);
            && b'.base == b.base && BookInv(b', vault, cards) && Dated(b', today)
            && (forall a :: ShareOf(a)(b') == ShareOf(a)(b) + (if a == b.base.asset then amount else 0))
            && (forall f :: SeesOnlyPayouts(f) ==> Sum(b'.streams, f) == Sum(b.streams, f))
  {
    CreditKeepsBook(b, today, cards, vault, amount);
  }

  lemma StockSeesOnlyPayouts(a: Address)
    ensures SeesOnlyPayouts(SyncedOf(a)) && SeesOnlyPayouts(UnpaidOf(a)) && SeesOnlyPayouts(DeliveredOf(a))
  {
  }

  // ---- Replacing one book keeps the totals ----

  lemma CustodyMoves(s: State, b: Book, custody: map<Address, nat>)
    requires CustodyInv(s.books, s.custody)
    requires forall a :: Amount(custody, a) == Amount(s.custody, a) + ShareOf(a)(b) - ShareOf(a)(BookAt(s, b.base))
    ensures CustodyInv(s.books[b.base := b], custody)
  {
    forall a ensures Amount(custody, a) == Sum(s.books[b.base := b], ShareOf(a)) {
      ReplaceShare(s, b, a);
    }
  }

  lemma StockStays(s: State, b: Book)
    requires StockInv(s.books, s.purchasedOutstanding, s.purchasedSpent, s.ready, s.paidTotal)
    requires forall a :: Sum(b.streams, SyncedOf(a)) == Sum(BookAt(s, b.base).streams, SyncedOf(a))
    requires forall a :: Sum(b.streams, UnpaidOf(a)) == Sum(BookAt(s, b.base).streams, UnpaidOf(a))
    requires forall a :: Sum(b.streams, DeliveredOf(a)) == Sum(BookAt(s, b.base).streams, DeliveredOf(a))
    ensures StockInv(s.books[b.base := b], s.purchasedOutstanding, s.purchasedSpent, s.ready, s.paidTotal)
  {
    forall a
      ensures Sum(s.books[b.base := b], Over(SyncedOf(a))) == Sum(s.books, Over(SyncedOf(a)))
      ensures Sum(s.books[b.base := b], Over(UnpaidOf(a))) == Sum(s.books, Over(UnpaidOf(a)))
      ensures Sum(s.books[b.base := b], Over(DeliveredOf(a))) == Sum(s.books, Over(DeliveredOf(a)))
    {
      ReplaceOver(s, b, SyncedOf(a));
      ReplaceOver(s, b, UnpaidOf(a));
      ReplaceOver(s, b, DeliveredOf(a));
    }
  }

  // ---- A fee ----

  ghost predicate SameStock(b: Book, b': Book) {
    && (forall a :: Sum(b'.streams, SyncedOf(a)) == Sum(b.streams, SyncedOf(a)))
    && (forall a :: Sum(b'.streams, UnpaidOf(a)) == Sum(b.streams, UnpaidOf(a)))
    && (forall a :: Sum(b'.streams, DeliveredOf(a)) == Sum(b.streams, DeliveredOf(a)))
  }

  /** `b'` is a valid book that has a claim to `amount` more of its asset than `b`. */
  ghost predicate Gains(nft: N.State, today: nat, b: Book, b': Book, amount: int) {
    && BookInv(b', N.VaultIds(nft), N.TotalSupply(nft)) && Dated(b', today)
    && (forall a :: ShareOf(a)(b') == ShareOf(a)(b) + (if a == b.base.asset then amount else 0))
    && SameStock(b, b')
  }

  /** The book is valid, except that the ledger may already owe the coming `amount`. */
  ghost predicate Creditable(s: State, base: Base, amount: nat) {
    var b, cards := BookAt(s, base), N.TotalSupply(s.nft);
    && b.base == base
    && Ledgered(b, cards) && StreamsInv(b, N.VaultIds(s.nft), cards) && Dated(b, Today(s))
    && b.due + TotalDrawn(b) <= TotalReceived(b) + amount
  }

  /** What `_credit` does to the contract: one book moves, by exactly the amount. */
  lemma CreditFeeMoves(s: State, base: Base, amount: nat) returns (b': Book)
    requires N.Inv(s.nft) && 0 < amount && Creditable(s, base, amount)
    requires CreditFee(s, base, amount).Success?
    ensures CreditFee(s, base, amount) == Success(WithBook(s, b'))
    ensures b'.base == base && Gains(s.nft, Today(s), BookAt(s, base), b', amount)
  {
    hide BookShape, Refines, Conserves, StreamsInv, N.Inv, Dated, Ledgered, Credit, N.TotalSupply, SeesOnlyPayouts,
      ShareOf, SyncedOf, UnpaidOf, DeliveredOf, Sum;
    VaultWithinCards(s.nft);
    b' := Credit(BookAt(s, base), Today(s), N.TotalSupply(s.nft), s.nft.protocolMinted, amount);
    CreditedBook(BookAt(s, base), Today(s), N.TotalSupply(s.nft), N.VaultIds(s.nft), amount);
    forall a ensures SeesOnlyPayouts(SyncedOf(a)) && SeesOnlyPayouts(UnpaidOf(a)) && SeesOnlyPayouts(DeliveredOf(a)) {
      StockSeesOnlyPayouts(a);
    }
  }

  /** Committing a valid book together with the custody its claim moved by. */
  lemma CommitBook(s: State, b: Book, custody: map<Address, nat>, held: map<Address, nat>)
    requires Inv(s)
    requires BookInv(b, N.VaultIds(s.nft), N.TotalSupply(s.nft)) && Dated(b, Today(s))
    requires forall a :: Amount(custody, a) == Amount(s.custody, a) + ShareOf(a)(b) - ShareOf(a)(BookAt(s, b.base))
    requires SameStock(BookAt(s, b.base), b)
    requires HeldInv(s.(custody := custody, held := held))
    ensures Inv(WithBook(s, b).(custody := custody, held := held))
  {
    CustodyMoves(s, b, custody);
    StockStays(s, b);
  }

  lemma FeeCommits(s0: State, s: State, b: Book, amount: nat)
    requires Inv(s0) && s == s0.(custody := Plus(s0.custody, b.base.asset, amount), held := s.held) && HeldInv(s)
    requires BookAt(s, b.base).base == b.base && Gains(s.nft, Today(s), BookAt(s, b.base), b, amount)
    ensures Inv(WithBook(s, b))
  {
    hide BookInv, Dated, N.Inv, StockInv, CustodyInv, BooksInv, HeldInv;
    CommitBook(s0, b, s.custody, s.held);
  }

  lemma NothingArrives(s0: State, s: State, asset: Address)
    requires Inv(s0) && s == s0.(custody := Plus(s0.custody, asset, 0), held := s.held) && HeldInv(s)
    ensures Inv(s)
  {
  }

  lemma FeeIsCreditable(s0: State, s: State, base: Base, amount: nat)
    requires Inv(s0) && s.nft == s0.nft && s.books == s0.books && s.now == s0.now
    ensures BookAt(s, base).base == base && Creditable(s, base, amount)
  {
    hide N.Inv, StockInv, Ledgered, StreamsInv, Dated;
    BookOf(s0, base);
  }

  /** A fee that arrived in custody is credited. */
  lemma CreditKeeps(s0: State, s: State, base: Base, amount: nat)
    requires Inv(s0) && s == s0.(custody := Plus(s0.custody, base.asset, amount), held := s.held) && HeldInv(s)
    ensures CreditFee(s, base, amount).Success? ==> Inv(CreditFee(s, base, amount).value)
  {
    hide BookInv, N.Inv, StockInv, Credit, Gains, Creditable;
    if amount == 0 {
      NothingArrives(s0, s, base.asset);
    } else if CreditFee(s, base, amount).Success? {
      FeeIsCreditable(s0, s, base, amount);
      var b' := CreditFeeMoves(s, base, amount);
      FeeCommits(s0, s, b', amount);
    }
  }

  /** The ledger's promise and the claim to it rise together. */
  lemma DebtCommits(s: State, b: Book, b': Book, amount: nat)
    requires Inv(s) && b == BookAt(s, b.base).(due := BookAt(s, b.base).due + amount)
    requires b'.base == b.base && Gains(s.nft, Today(s), b, b', amount)
    ensures Inv(WithBook(s, b'))
  {
    hide BookInv, Dated, N.Inv, StockInv, CustodyInv, BooksInv, HeldInv;
    CommitBook(s, b', s.custody, s.held);
  }

  lemma NothingOwed(s: State, base: Base)
    requires Inv(s)
    ensures Inv(WithBook(s, BookAt(s, base)))
  {
    hide BookInv, N.Inv, StockInv;
    BookOf(s, base);
    CommitBook(s, BookAt(s, base), s.custody, s.held);
  }

  lemma CreditNeverUnderflows(s: State, base: Base, amount: nat)
    requires N.Inv(s.nft)
    ensures CreditFee(s, base, amount).Failure? ==>
              CreditFee(s, base, amount).error in {FirstDeskRequired, ProtocolStakingMissing}
  {
    hide Credit;
    VaultWithinCards(s.nft);
  }

  lemma PromisedFeeIsCreditable(s: State, base: Base, amount: nat)
    requires Inv(s)
    ensures N.Inv(s.nft)
    ensures var b := BookAt(s, base);
            b.base == base && Creditable(WithBook(s, b.(due := b.due + amount)), base, amount)
  {
    hide N.Inv, StockInv, CustodyInv, Ledgered, StreamsInv, Dated;
    BookOf(s, base);
    var b := BookAt(s, base);
    DueIsApart(b, b.due + amount, N.VaultIds(s.nft), N.TotalSupply(s.nft), Today(s));
  }

  lemma ZeroIsNoFee(s: State, base: Base)
    ensures CreditFee(s, base, 0) == Success(s)
  {
  }

  /** A fee the ledger still owes is credited. */
  lemma OnFeeCreditKeeps(s: State, base: Base, amount: nat)
    requires Inv(s)
    ensures OnFeeCredit(s, base, amount).Success? ==> Inv(OnFeeCredit(s, base, amount).value)
  {
    hide Inv, N.Inv, CreditFee, Creditable, Gains;
    PromisedFeeIsCreditable(s, base, amount);
    var b := BookAt(s, base);
    var b1 := b.(due := b.due + amount);
    var s1 := WithBook(s, b1);
    if amount == 0 {
      NothingOwed(s, base);
      ZeroIsNoFee(s1, base);
    } else if CreditFee(s1, base, amount).Success? {
      var b' := CreditFeeMoves(s1, base, amount);
      DebtCommits(s, b1, b', amount);
      assert WithBook(s1, b') == WithBook(s, b');
    }
  }

  lemma ReceiveNativeKeeps(s: State, source: Source, amount: nat)
    requires Inv(s)
    ensures ReceiveNative(s, source, amount).Success? ==> Inv(ReceiveNative(s, source, amount).value)
  {
    CreditKeeps(s, s.(custody := Plus(s.custody, NATIVE, amount)), Base(source, NATIVE), amount);
  }

  lemma DepositRoyaltyKeeps(s: State, asset: Address, raw: nat)
    requires Inv(s)
    ensures DepositRoyalty(s, asset, raw).Success? ==> Inv(DepositRoyalty(s, asset, raw).value)
  {
    hide BooksInv, N.Inv, CustodyInv, StockInv, CreditFee;
    var received := s.(custody := Plus(s.custody, asset, raw), held := Plus(s.held, asset, raw));
    CreditKeeps(s, received, Base(Royalty, asset), raw);
  }

  /** Synchronising finds no negative difference, and recognises only what nothing else has a claim to. */
  lemma SyncRoyaltyKeeps(s: State, asset: Address)
    requires Inv(s)
    ensures var r := SyncRoyalty(s, asset);
            (r.Success? ==> Inv(r.value))
            && (r.Failure? ==> r.error in {StockRoyaltyAsset, FirstDeskRequired, ProtocolStakingMissing})
  {
    hide Inv, CreditFee;
    if asset in s.royaltyAssets {
      RoyaltyNeverUnderflows(s, asset);
      CardsAreValid(s);
      var raw := Amount(s.held, asset) - Amount(s.custody, asset)
                 - (Amount(s.paidTotal, asset) - Amount(s.purchasedSpent, asset));
      CreditNeverUnderflows(s.(custody := Plus(s.custody, asset, raw)), Base(Royalty, asset), raw);
      CreditKeeps(s, s.(custody := Plus(s.custody, asset, raw)), Base(Royalty, asset), raw);
    }
  }

  /** Neither subtraction of `syncRoyalty` can fail, and what it finds still leaves the balance covered. */
  lemma RoyaltyNeverUnderflows(s: State, asset: Address)
    requires Inv(s) && asset in s.royaltyAssets
    ensures Amount(s.purchasedSpent, asset) <= Amount(s.paidTotal, asset)
    ensures Amount(s.custody, asset) + Amount(s.paidTotal, asset)
            <= Amount(s.held, asset) + Amount(s.purchasedSpent, asset)
    ensures var raw := Amount(s.held, asset) - Amount(s.custody, asset)
                       - (Amount(s.paidTotal, asset) - Amount(s.purchasedSpent, asset));
            HeldInv(s.(custody := Plus(s.custody, asset, raw)))
  {
    hide BooksInv, N.Inv, CustodyInv;
    assert Amount(s.purchasedOutstanding, asset) + Amount(s.purchasedSpent, asset) <= Amount(s.paidTotal, asset);
  }

  // ---- A payout ----

  /** The book once stream `e` became `t` and the ledger paid what it owed. */
  function Settled(b: Book, e: nat, t: Stream): Book {
    WithStream(b, e, t).(due := 0)
  }

  ghost predicate MayEdit(b: Book, e: nat, t: Stream, vault: set<nat>, cards: nat, today: nat) {
    && BookInv(b, vault, cards) && Dated(b, today) && e in b.streams
    && SameCredits(b.streams[e], t) && PaidInv(t, b.base.IsRaw(), vault, cards) && (t.isSealed ==> e < today)
  }

  ghost function Delta(b: Book, e: nat, t: Stream): int
    requires e in b.streams
  {
    Drawn(b.base.IsRaw())(t) - Drawn(b.base.IsRaw())(b.streams[e])
  }

  lemma SettledBook(b: Book, e: nat, t: Stream, vault: set<nat>, cards: nat, today: nat)
    requires MayEdit(b, e, t, vault, cards, today)
    ensures var b' := Settled(b, e, t);
            && BookInv(b', vault, cards) && Dated(b', today)
            && (forall a :: ShareOf(a)(b') == ShareOf(a)(b) + (if a == b.base.asset then b.due - Delta(b, e, t) else 0))
  {
    hide Ledgered, StreamsInv, PaidInv;
    EditKeepsBook(b, e, t, vault, cards);
    DueIsApart(WithStream(b, e, t), 0, vault, cards, today);
  }

  lemma SettledStock(b: Book, e: nat, t: Stream, f: Stream -> int)
    requires e in b.streams
    ensures Sum(Settled(b, e, t).streams, f) == Sum(b.streams, f) - f(b.streams[e]) + f(t)
  {
    SumUpdate(b.streams, e, t, f);
  }

  /** Collecting from the ledger clears the debt and raises the balances by it. */
  lemma PullEffect(s: State, b: Book)
    ensures var p := Pull(WithBook(s, b), b.base);
            && p == WithBook(s, b.(due := 0)).(custody := p.custody, held := p.held)
            && (forall a :: Amount(p.custody, a) == Amount(s.custody, a) + (if a == b.base.asset then b.due else 0))
            && (forall a :: Amount(p.held, a)
                            == Amount(s.held, a) + (if a == b.base.asset && b.base.IsRaw() then b.due else 0))
  {
    assert s.books[b.base := b][b.base := b.(due := 0)] == s.books[b.base := b.(due := 0)];
  }

  lemma SharesAreNotNegative(books: map<Base, Book>, vault: set<nat>, cards: nat, today: nat, a: Address)
    requires BooksInv(books, vault, cards, today)
    ensures 0 <= Sum(books, ShareOf(a))
  {
    hide Ledgered, StreamsInv, Dated;
    SumNonNegative(books, ShareOf(a));
  }

  /** The state after a stream was marked and the ledger collected from: custody still has what is about to leave. */
  function Marked(s: State, key: Key, t: Stream): State {
    Pull(WithBook(s, WithStream(BookAt(s, key.base), key.epoch, t).(base := key.base)), key.base)
  }

  ghost predicate MayMark(s: State, key: Key, t: Stream) {
    MayEdit(BookAt(s, key.base), key.epoch, t, N.VaultIds(s.nft), N.TotalSupply(s.nft), Today(s))
  }

  lemma MarkedBooks(s: State, key: Key, t: Stream)
    requires Inv(s) && MayMark(s, key, t)
    ensures var b, p := BookAt(s, key.base), Marked(s, key, t);
            && b.base == key.base
            && p == WithBook(s, Settled(b, key.epoch, t)).(custody := p.custody, held := p.held)
            && BooksInv(p.books, N.VaultIds(s.nft), N.TotalSupply(s.nft), Today(s))
            && (forall a :: Amount(p.custody, a) == Amount(s.custody, a) + (if a == key.base.asset then b.due else 0))
            && (forall a :: Amount(p.held, a)
                            == Amount(s.held, a) + (if a == key.base.asset && key.base.IsRaw() then b.due else 0))
  {
    hide BookInv, Dated, N.Inv, StockInv, CustodyInv, PaidInv;
    var b := BookAt(s, key.base);
    BookOf(s, key.base);
    SettledBook(b, key.epoch, t, N.VaultIds(s.nft), N.TotalSupply(s.nft), Today(s));
    PullEffect(s, WithStream(b, key.epoch, t));
  }

  /** Custody is what the books have a claim to and the part now owed to the outside, and covers that part. */
  lemma MarkedCustody(s: State, key: Key, t: Stream)
    requires Inv(s) && MayMark(s, key, t)
    ensures var b, p := BookAt(s, key.base), Marked(s, key, t);
            && (forall a :: Amount(p.custody, a)
                            == Sum(p.books, ShareOf(a)) + (if a == key.base.asset then Delta(b, key.epoch, t) else 0))
            && Delta(b, key.epoch, t) <= Amount(p.custody, key.base.asset)
  {
    hide BookInv, Dated, N.Inv, StockInv, PaidInv, BooksInv;
    var b, p := BookAt(s, key.base), Marked(s, key, t);
    var b' := Settled(b, key.epoch, t);
    MarkedBooks(s, key, t);
    SettledBook(b, key.epoch, t, N.VaultIds(s.nft), N.TotalSupply(s.nft), Today(s));
    forall a ensures Amount(p.custody, a)
                     == Sum(p.books, ShareOf(a)) + (if a == key.base.asset then Delta(b, key.epoch, t) else 0) {
      ReplaceShare(s, b', a);
    }
    SharesAreNotNegative(p.books, N.VaultIds(s.nft), N.TotalSupply(s.nft), Today(s), key.base.asset);
  }

  ghost predicate EqualStock(st: Stream, t: Stream) {
    forall a ::
      SyncedOf(a)(t) == SyncedOf(a)(st) && UnpaidOf(a)(t) == UnpaidOf(a)(st) && DeliveredOf(a)(t) == DeliveredOf(a)(st)
  }

  lemma SettledKeepsStock(s: State, b: Book, e: nat, t: Stream)
    requires StockInv(s.books, s.purchasedOutstanding, s.purchasedSpent, s.ready, s.paidTotal)
    requires e in b.streams && b == BookAt(s, b.base) && EqualStock(b.streams[e], t)
    ensures StockInv(s.books[b.base := Settled(b, e, t)], s.purchasedOutstanding, s.purchasedSpent, s.ready,
                     s.paidTotal)
  {
    forall a
      ensures Sum(Settled(b, e, t).streams, SyncedOf(a)) == Sum(b.streams, SyncedOf(a))
      ensures Sum(Settled(b, e, t).streams, UnpaidOf(a)) == Sum(b.streams, UnpaidOf(a))
      ensures Sum(Settled(b, e, t).streams, DeliveredOf(a)) == Sum(b.streams, DeliveredOf(a))
    {
      assert SyncedOf(a)(t) == SyncedOf(a)(b.streams[e]);
      SettledStock(b, e, t, SyncedOf(a));
      SettledStock(b, e, t, UnpaidOf(a));
      SettledStock(b, e, t, DeliveredOf(a));
    }
    StockStays(s, Settled(b, e, t));
  }

  /** What is owed to the outside can leave custody, and then custody is the books' claim again. */
  lemma DrawKeeps(s: State, key: Key, t: Stream, amount: nat, custody: map<Address, nat>, held: map<Address, nat>)
    requires Inv(s) && MayMark(s, key, t)
    requires EqualStock(BookAt(s, key.base).streams[key.epoch], t) && amount == Delta(BookAt(s, key.base), key.epoch, t)
    requires forall a :: Amount(custody, a)
                         == Amount(Marked(s, key, t).custody, a) - (if a == key.base.asset then amount else 0)
    requires HeldInv(s.(custody := custody, held := held))
    ensures Inv(Marked(s, key, t).(custody := custody, held := held))
  {
    hide BookInv, Dated, N.Inv, PaidInv, BooksInv, StockInv, EqualStock;
    var b := BookAt(s, key.base);
    MarkedBooks(s, key, t);
    MarkedCustody(s, key, t);
    SettledKeepsStock(s, b, key.epoch, t);
    assert CustodyInv(s.books[key.base := Settled(b, key.epoch, t)], custody);
  }

  /** Custody never holds more of an ERC-20 than this contract does. */
  lemma HeldCoversCustody(s: State, a: Address)
    requires Inv(s) && a != NATIVE
    ensures Amount(s.custody, a) + Amount(s.purchasedOutstanding, a) <= Amount(s.held, a)
  {
    hide BooksInv, N.Inv, CustodyInv;
  }

  /** What a raw payment takes is in custody and in this contract. */
  lemma RawPaymentIsHeld(s: State, key: Key, t: Stream)
    requires Inv(s) && MayMark(s, key, t) && key.base.IsRaw()
    ensures var p := Marked(s, key, t);
            && Delta(BookAt(s, key.base), key.epoch, t) <= Amount(p.custody, key.base.asset)
                                                        <= Amount(p.held, key.base.asset)
            && HeldInv(s.(custody := p.custody, held := p.held))
  {
    hide BookInv, Dated, N.Inv, PaidInv, BooksInv, StockInv, CustodyInv, Marked, MayMark, Delta;
    MarkedBooks(s, key, t);
    MarkedCustody(s, key, t);
    HeldCoversCustody(s, key.base.asset);
  }

  /** Taking the same amount of custody and balance keeps custody covered. */
  lemma BothLeave(s: State, asset: Address, amount: nat)
    requires HeldInv(s) && amount <= Amount(s.custody, asset) && amount <= Amount(s.held, asset)
    ensures HeldInv(s.(custody := Minus(s.custody, asset, amount, Underflow).value,
                       held := Minus(s.held, asset, amount, Underflow).value))
  {
  }

  /** Raw assets leave custody and this contract together. */
  lemma DeliverRawKeeps(s: State, key: Key, t: Stream, amount: nat)
    requires Inv(s) && MayMark(s, key, t) && key.base.IsRaw()
    requires EqualStock(BookAt(s, key.base).streams[key.epoch], t) && amount == Delta(BookAt(s, key.base), key.epoch, t)
    ensures var r := DeliverRaw(Marked(s, key, t), key.base.asset, amount); r.Success? && Inv(r.value)
  {
    hide Inv, MayMark, Marked, EqualStock, Delta, HeldInv;
    RawPaymentIsHeld(s, key, t);
    MarkedCustody(s, key, t);
    var p := Marked(s, key, t);
    BothLeave(s.(custody := p.custody, held := p.held), key.base.asset, amount);
    var custody := Minus(p.custody, key.base.asset, amount, Underflow);
    var held := Minus(p.held, key.base.asset, amount, Underflow);
    DrawKeeps(s, key, t, amount, custody.value, held.value);
  }

  lemma SendNativeKeeps(s: State, key: Key, t: Stream, amount: nat)
    requires Inv(s) && MayMark(s, key, t) && !key.base.IsRaw()
    requires EqualStock(BookAt(s, key.base).streams[key.epoch], t) && amount == Delta(BookAt(s, key.base), key.epoch, t)
    ensures var r := SendNative(Marked(s, key, t), amount); r.Success? && Inv(r.value)
  {
    hide BookInv, Dated, N.Inv, PaidInv, BooksInv, StockInv, EqualStock, CustodyInv;
    MarkedBooks(s, key, t);
    MarkedCustody(s, key, t);
    var p := Marked(s, key, t);
    var custody := Minus(p.custody, NATIVE, amount, Underflow);
    DrawKeeps(s, key, t, amount, custody.value, p.held);
  }

  /** No book has paid out more stock than was bought for it. */
  lemma UnpaidIsNotNegative(books: map<Base, Book>, vault: set<nat>, cards: nat, today: nat, a: Address)
    requires BooksInv(books, vault, cards, today)
    ensures 0 <= Sum(books, Over(UnpaidOf(a)))
  {
    hide Ledgered, Dated;
    forall base <- books ensures 0 <= Over(UnpaidOf(a))(books[base]) {
      BookUnpaidIsNotNegative(books[base], vault, cards, a);
    }
    SumNonNegative(books, Over(UnpaidOf(a)));
  }

  lemma BookUnpaidIsNotNegative(b: Book, vault: set<nat>, cards: nat, a: Address)
    requires StreamsInv(b, vault, cards)
    ensures 0 <= Sum(b.streams, UnpaidOf(a))
  {
    forall e <- b.streams ensures 0 <= UnpaidOf(a)(b.streams[e]) {
      if b.streams[e].isSealed {
        StockPaymentsWithinPurchase(b.streams[e], vault, cards);
      }
    }
    SumNonNegative(b.streams, UnpaidOf(a));
  }

  /** Paying stock moves it from outstanding to spent. */
  lemma SettledPaysStock(s: State, b: Book, e: nat, id: nat, amount: nat, asset: Address)
    requires StockInv(s.books, s.purchasedOutstanding, s.purchasedSpent, s.ready, s.paidTotal)
    requires e in b.streams && b == BookAt(s, b.base) && b.streams[e].isSealed && b.streams[e].entryAsset == asset
    requires amount <= Amount(s.purchasedOutstanding, asset)
    requires PaidSum(PaidStream(b.streams[e], id, amount)) == PaidSum(b.streams[e]) + amount
    ensures StockInv(s.books[b.base := Settled(b, e, PaidStream(b.streams[e], id, amount))],
                     s.purchasedOutstanding[asset := Amount(s.purchasedOutstanding, asset) - amount],
                     Plus(s.purchasedSpent, asset, amount), s.ready, s.paidTotal)
  {
    hide Sum, SyncedOf, UnpaidOf, DeliveredOf, Settled, PaidSum;
    var books := s.books[b.base := Settled(b, e, PaidStream(b.streams[e], id, amount))];
    forall a
      ensures Sum(books, Over(SyncedOf(a))) == Sum(s.books, Over(SyncedOf(a)))
      ensures Sum(books, Over(UnpaidOf(a))) == Sum(s.books, Over(UnpaidOf(a))) - (if a == asset then amount else 0)
      ensures Sum(books, Over(DeliveredOf(a))) == Sum(s.books, Over(DeliveredOf(a)))
    {
      SettledMovesTotals(s, b, e, id, amount, a);
    }
  }

  /** Of an asset's totals, a payment moves only the unpaid one. */
  lemma SettledMovesTotals(s: State, b: Book, e: nat, id: nat, amount: nat, a: Address)
    requires e in b.streams && b == BookAt(s, b.base) && b.streams[e].isSealed
    requires PaidSum(PaidStream(b.streams[e], id, amount)) == PaidSum(b.streams[e]) + amount
    ensures var books := s.books[b.base := Settled(b, e, PaidStream(b.streams[e], id, amount))];
            && Sum(books, Over(SyncedOf(a))) == Sum(s.books, Over(SyncedOf(a)))
            && Sum(books, Over(UnpaidOf(a)))
               == Sum(s.books, Over(UnpaidOf(a))) - (if a == b.streams[e].entryAsset then amount else 0)
            && Sum(books, Over(DeliveredOf(a))) == Sum(s.books, Over(DeliveredOf(a)))
  {
    hide Sum, PaidSum;
    var t := PaidStream(b.streams[e], id, amount);
    var b' := Settled(b, e, t);
    SettledStock(b, e, t, SyncedOf(a));
    SettledStock(b, e, t, UnpaidOf(a));
    SettledStock(b, e, t, DeliveredOf(a));
    ReplaceOver(s, b', SyncedOf(a));
    ReplaceOver(s, b', UnpaidOf(a));
    ReplaceOver(s, b', DeliveredOf(a));
  }

  /** The stock about to be paid is outstanding. */
  lemma StockIsOutstanding(s: State, key: Key, id: nat, amount: nat, asset: Address)
    requires Inv(s) && key.epoch in BookAt(s, key.base).streams
    requires var st := BookAt(s, key.base).streams[key.epoch];
             && MayMark(s, key, PaidStream(st, id, amount)) && st.isSealed && st.entryAsset == asset
             && PaidSum(PaidStream(st, id, amount)) == PaidSum(st) + amount
    ensures amount <= Amount(s.purchasedOutstanding, asset)
  {
    hide BookInv, Dated, N.Inv, PaidInv, BooksInv, CustodyInv;
    var b := BookAt(s, key.base);
    var t := PaidStream(b.streams[key.epoch], id, amount);
    MarkedBooks(s, key, t);
    UnpaidIsNotNegative(Marked(s, key, t).books, N.VaultIds(s.nft), N.TotalSupply(s.nft), Today(s), asset);
    ReplaceOver(s, Settled(b, key.epoch, t), UnpaidOf(asset));
    SettledStock(b, key.epoch, t, UnpaidOf(asset));
  }

  /** Paying stock draws nothing from custody. */
  lemma StockIsNotCustody(s: State, key: Key, t: Stream)
    requires Inv(s) && MayMark(s, key, t) && !key.base.IsRaw()
    requires var st := BookAt(s, key.base).streams[key.epoch];
             t.isSealed == st.isSealed && t.delegatedFunded == st.delegatedFunded
    ensures var p := Marked(s, key, t); CustodyInv(p.books, p.custody) && HeldInv(p)
  {
    hide BookInv, Dated, N.Inv, PaidInv, BooksInv, StockInv;
    var b := BookAt(s, key.base);
    MarkedBooks(s, key, t);
    MarkedCustody(s, key, t);
    assert Delta(b, key.epoch, t) == 0;
  }

  /** The transfer of bought stock, once the books and the stock totals agree on it. */
  lemma StockLeaves(p: State, asset: Address, amount: nat)
    requires N.Inv(p.nft) && NATIVE !in p.royaltyAssets && asset != NATIVE
    requires BooksInv(p.books, N.VaultIds(p.nft), N.TotalSupply(p.nft), Today(p))
    requires CustodyInv(p.books, p.custody) && HeldInv(p)
    requires amount <= Amount(p.purchasedOutstanding, asset) && amount <= Amount(p.held, asset)
    requires StockInv(p.books, p.purchasedOutstanding[asset := Amount(p.purchasedOutstanding, asset) - amount],
                      Plus(p.purchasedSpent, asset, amount), p.ready, p.paidTotal)
    ensures var r := DeliverStock(p, asset, amount); r.Success? && Inv(r.value)
  {
    hide N.Inv, BooksInv, CustodyInv, StockInv;
  }

  /** Bought stock leaves this contract, and what is outstanding shrinks by it. */
  lemma DeliverStockKeeps(s: State, key: Key, id: nat, amount: nat, asset: Address)
    requires Inv(s) && !key.base.IsRaw() && key.epoch in BookAt(s, key.base).streams && asset != NATIVE
    requires var st := BookAt(s, key.base).streams[key.epoch];
             && MayMark(s, key, PaidStream(st, id, amount)) && st.isSealed && st.entryAsset == asset
             && PaidSum(PaidStream(st, id, amount)) == PaidSum(st) + amount
    ensures var t := PaidStream(BookAt(s, key.base).streams[key.epoch], id, amount);
            var r := DeliverStock(Marked(s, key, t), asset, amount);
            r.Success? && Inv(r.value)
  {
    hide MayEdit, N.Inv, BooksInv, CustodyInv, StockInv, HeldInv, DeliverStock;
    var b := BookAt(s, key.base);
    var t := PaidStream(b.streams[key.epoch], id, amount);
    MarkedBooks(s, key, t);
    StockIsNotCustody(s, key, t);
    StockIsOutstanding(s, key, id, amount, asset);
    HeldCoversCustody(s, asset);
    SettledPaysStock(s, b, key.epoch, id, amount, asset);
    StockLeaves(Marked(s, key, t), asset, amount);
  }

  lemma NothingInAFreshStream(isRaw: bool, id: nat)
    ensures Claimable(FRESH, isRaw, id) == Success(0)
  {
    DivBounds(0, PRECISION);
  }

  /** What a card can claim of a stream may be marked as paid. */
  lemma PaymentMayBeMarked(s: State, id: nat, key: Key)
    requires Inv(s) && 1 <= id <= N.TotalSupply(s.nft) && id !in N.VaultIds(s.nft)
    ensures Claimable(StreamOf(s, key), key.base.IsRaw(), id).Success?
    ensures var st := StreamOf(s, key);
            var amount := Claimable(st, key.base.IsRaw(), id).value;
            0 < amount ==>
              && key.epoch in BookAt(s, key.base).streams && BookAt(s, key.base).base == key.base
              && MayMark(s, key, PaidStream(st, id, amount))
              && PaidSum(PaidStream(st, id, amount)) == PaidSum(st) + amount
              && (if key.base.IsRaw() then !st.isSealed
                  else st.isSealed && st.entryAsset != NATIVE && st.purchasedAsset == st.entryAsset)
  {
    hide Ledgered, Claimable, N.Inv, CustodyInv, StockInv, Sides, StreamShape, PaidInv;
    var b, st, isRaw := BookAt(s, key.base), StreamOf(s, key), key.base.IsRaw();
    var vault, cards := N.VaultIds(s.nft), N.TotalSupply(s.nft);
    BookOf(s, key.base);
    if key.epoch in b.streams {
      ClaimableNeverUnderflows(st, isRaw, vault, cards, id);
      PayKeepsPaid(st, isRaw, vault, cards, id, Claimable(st, isRaw, id).value);
      if 0 < Claimable(st, isRaw, id).value {
        StockNeedsPurchase(st, isRaw, vault, cards, id);
      }
    } else {
      NothingInAFreshStream(isRaw, id);
    }
  }

  lemma StockNeedsPurchase(st: Stream, isRaw: bool, vault: set<nat>, cards: nat, id: nat)
    requires StreamShape(st) && PaidInv(st, isRaw, vault, cards) && 0 < id
    requires Claimable(st, isRaw, id).Success? && 0 < Claimable(st, isRaw, id).value
    ensures if isRaw then !st.isSealed else st.isSealed && st.entryAsset != NATIVE && st.purchasedAsset == st.entryAsset
  {
    OwedBounds(st, isRaw, Credit27(st, id));
  }

  /** The payment was stopped by the eligibility controller, or by a transfer outside this contract. */
  predicate OutsideRefused(e: Error, eligible: bool, settles: bool) {
    (e == DeliveryEligibility && !eligible) || (e == Settlement && !settles)
  }

  /** Paying one stream to one card never overdraws anything: it fails only on eligibility or an outside transfer. */
  lemma PayKeyKeeps(s: State, id: nat, key: Key, eligible: bool, settles: bool)
    requires Inv(s) && 1 <= id <= N.TotalSupply(s.nft) && id !in N.VaultIds(s.nft)
    ensures var r := PayKey(s, id, key, eligible, settles);
            && (r.Success? ==> Inv(r.value) && r.value.nft == s.nft)
            && (r.Failure? ==> OutsideRefused(r.error, eligible, settles))
  {
    hide Inv, Claimable, MayMark, DeliverRaw, DeliverStock, PaidSum;
    PaymentMayBeMarked(s, id, key);
    var st := StreamOf(s, key);
    var amount := Claimable(st, key.base.IsRaw(), id).value;
    if 0 < amount && eligible && settles {
      if key.base.IsRaw() {
        RawPaymentKeeps(s, key, id, amount);
      } else {
        DeliverStockKeeps(s, key, id, amount, st.entryAsset);
        StockPaymentTouchesNoCard(Marked(s, key, PaidStream(st, id, amount)), st.entryAsset, amount);
      }
      assert MarkPaid(s, id, key, amount)
        == WithBook(s, WithStream(BookAt(s, key.base), key.epoch, PaidStream(st, id, amount)).(base := key.base));
    }
  }

  lemma StockPaymentTouchesNoCard(s: State, asset: Address, amount: nat)
    ensures DeliverStock(s, asset, amount).Success? ==> DeliverStock(s, asset, amount).value.nft == s.nft
  {
  }

  lemma RawPaymentKeeps(s: State, key: Key, id: nat, amount: nat)
    requires Inv(s) && key.base.IsRaw()
    requires key.epoch in BookAt(s, key.base).streams && BookAt(s, key.base).base == key.base
    requires var st := BookAt(s, key.base).streams[key.epoch];
             && MayMark(s, key, PaidStream(st, id, amount)) && !st.isSealed
             && PaidSum(PaidStream(st, id, amount)) == PaidSum(st) + amount
    ensures var p := Marked(s, key, PaidStream(BookAt(s, key.base).streams[key.epoch], id, amount));
            var r := DeliverRaw(p, key.base.asset, amount);
            r.Success? && Inv(r.value) && r.value.nft == s.nft
  {
    hide Inv, MayMark;
    DeliverRawKeeps(s, key, PaidStream(BookAt(s, key.base).streams[key.epoch], id, amount), amount);
  }

  lemma {:induction false} PayKeysKeeps(s: State, id: nat, keys: seq<Key>, eligible: bool, settles: bool)
    requires Inv(s) && 1 <= id <= N.TotalSupply(s.nft) && id !in N.VaultIds(s.nft)
    ensures var r := PayKeys(s, id, keys, eligible, settles);
            && (r.Success? ==> Inv(r.value))
            && (r.Failure? ==> OutsideRefused(r.error, eligible, settles))
    decreases |keys|
  {
    hide Inv, PayKey;
    if keys != [] {
      PayKeyKeeps(s, id, keys[0], eligible, settles);
      if PayKey(s, id, keys[0], eligible, settles).Success? {
        PayKeysKeeps(PayKey(s, id, keys[0], eligible, settles).value, id, keys[1..], eligible, settles);
      }
    }
  }

  lemma PayableCard(s: State, id: nat)
    requires Inv(s) && id in s.nft.owner && s.nft.owner[id] != s.nft.protocolVault
    ensures 1 <= id <= N.TotalSupply(s.nft) && id !in N.VaultIds(s.nft)
  {
    hide BooksInv, CustodyInv, StockInv, HeldInv;
    assert N.Inv(s.nft);
  }

  lemma PayKeeps(s: State, id: nat, keys: seq<Key>, eligible: bool, settles: bool)
    requires Inv(s)
    ensures var r := Pay(s, id, keys, eligible, settles);
            && (r.Success? ==> Inv(r.value))
            && (r.Failure? ==>
                  || r.error in {Claim, ProtocolDelegated}
                  || OutsideRefused(r.error, eligible, settles))
  {
    hide PayKeys, BooksInv, CustodyInv, StockInv, HeldInv;
    if id in s.nft.owner && s.nft.owner[id] != s.nft.protocolVault {
      assert N.Inv(s.nft);
      PayKeysKeeps(s, id, keys, eligible, settles);
    }
  }

  // ---- Forwarding and sealing ----

  function FundedStream(st: Stream, amount: nat): Stream {
    st.(delegatedFunded := st.delegatedFunded + amount)
  }

  lemma FundingMayBeMarked(s: State, key: Key)
    requires Inv(s) && StreamOf(s, key).supply != 0
    ensures Fundable(StreamOf(s, key)).Success?
    ensures var st := StreamOf(s, key);
            var amount := Fundable(st).value;
            && key.epoch in BookAt(s, key.base).streams && BookAt(s, key.base).base == key.base
            && MayMark(s, key, FundedStream(st, amount)) && EqualStock(st, FundedStream(st, amount))
            && Delta(BookAt(s, key.base), key.epoch, FundedStream(st, amount)) == amount
  {
    hide Ledgered, Fundable, N.Inv, CustodyInv, StockInv, Sides, StreamShape, PaidInv;
    var b, st := BookAt(s, key.base), StreamOf(s, key);
    BookOf(s, key.base);
    FundKeepsPaid(st, key.base.IsRaw(), N.VaultIds(s.nft), N.TotalSupply(s.nft));
  }

  /** Forwarding the vault's part never overdraws custody. */
  lemma FundProtocolKeeps(s: State, key: Key, settles: bool)
    requires Inv(s)
    ensures var r := FundProtocol(s, key, settles);
            && (r.Success? ==> Inv(r.value))
            && (r.Failure? ==> r.error in {NoStream, Settlement})
  {
    hide Inv, MayMark, Fundable, DeliverRaw, SendNative, EqualStock;
    var st := StreamOf(s, key);
    if st.supply != 0 && settles {
      FundingMayBeMarked(s, key);
      var amount := Fundable(st).value;
      if key.base.IsRaw() {
        DeliverRawKeeps(s, key, FundedStream(st, amount), amount);
      } else {
        SendNativeKeeps(s, key, FundedStream(st, amount), amount);
      }
      assert MarkFunded(s, key, amount)
        == WithBook(s, WithStream(BookAt(s, key.base), key.epoch, FundedStream(st, amount)).(base := key.base));
    } else if st.supply != 0 {
      FundingMayBeMarked(s, key);
    }
  }

  function SealedStream(st: Stream, asset: Address): Stream {
    st.(isSealed := true, entryAsset := asset)
  }

  /** A stream has paid no stock before it is sealed. */
  lemma UnsealedStreamPaidNothing(st: Stream, vault: set<nat>, cards: nat, asset: Address)
    requires StreamInv(st, false, vault, cards) && !st.isSealed
    ensures PaidSum(st) == 0 && EqualStock(st, SealedStream(st, asset))
  {
    hide Sides;
    StockPaymentsWithinPurchase(st, vault, cards);
  }

  lemma SealMayBeMarked(s: State, key: Key, asset: Address)
    requires Inv(s) && !key.base.IsRaw() && StreamOf(s, key).supply != 0 && asset != NATIVE
    requires !StreamOf(s, key).isSealed && (key.epoch + 1) * DAY <= s.now && 0 < Budget(StreamOf(s, key))
    ensures var st := StreamOf(s, key);
            && key.epoch in BookAt(s, key.base).streams && BookAt(s, key.base).base == key.base
            && MayMark(s, key, SealedStream(st, asset)) && EqualStock(st, SealedStream(st, asset))
            && Delta(BookAt(s, key.base), key.epoch, SealedStream(st, asset)) == Budget(st)
  {
    hide Ledgered, N.Inv, CustodyInv, StockInv, Sides, StreamShape, PaidInv;
    BookOf(s, key.base);
    var st := StreamOf(s, key);
    SealKeepsPaid(st, N.VaultIds(s.nft), N.TotalSupply(s.nft), asset);
    UnsealedStreamPaidNothing(st, N.VaultIds(s.nft), N.TotalSupply(s.nft), asset);
  }

  /** Sealing never overdraws the native balance. */
  lemma SealKeeps(s: State, key: Key, asset: Address, settles: bool)
    requires Inv(s)
    ensures var r := SealDesk(s, key, asset, settles);
            && (r.Success? ==> Inv(r.value))
            && (r.Failure? ==> r.error in {NotEntry, Seal, EmptyBudget, Settlement})
  {
    hide Inv, MayMark, Budget, SendNative, EqualStock;
    var st := StreamOf(s, key);
    if !key.base.IsRaw() && st.supply != 0 && asset != NATIVE && !st.isSealed && (key.epoch + 1) * DAY <= s.now
       && 0 < Budget(st)
    {
      SealMayBeMarked(s, key, asset);
      SendNativeKeeps(s, key, SealedStream(st, asset), Budget(st));
    }
  }

  // ---- Bought stock comes in ----

  /** A change to what was delivered or synced for a sealed stream: the books keep, custody is not involved. */
  lemma StockEdit(s: State, key: Key, t: Stream)
    requires Inv(s) && key.epoch in BookAt(s, key.base).streams && StreamOf(s, key).isSealed
    requires SameCredits(StreamOf(s, key), t) && PaidInv(t, key.base.IsRaw(), N.VaultIds(s.nft), N.TotalSupply(s.nft))
    requires t.isSealed && t.delegatedFunded == StreamOf(s, key).delegatedFunded
    ensures BookAt(s, key.base).base == key.base && !key.base.IsRaw()
    ensures var books := s.books[key.base := WithStream(BookAt(s, key.base), key.epoch, t)];
            && BooksInv(books, N.VaultIds(s.nft), N.TotalSupply(s.nft), Today(s))
            && CustodyInv(books, s.custody)
  {
    hide Ledgered, N.Inv, StockInv, Sides, StreamShape;
    var b, vault, cards := BookAt(s, key.base), N.VaultIds(s.nft), N.TotalSupply(s.nft);
    BookOf(s, key.base);
    EditKeepsBook(b, key.epoch, t, vault, cards);
    CustodyMoves(s, WithStream(b, key.epoch, t), s.custody);
  }

  lemma EditStock(s: State, key: Key, t: Stream, f: Stream -> int)
    requires key.epoch in BookAt(s, key.base).streams && BookAt(s, key.base).base == key.base
    ensures Sum(s.books[key.base := WithStream(BookAt(s, key.base), key.epoch, t)], Over(f))
            == Sum(s.books, Over(f)) - f(StreamOf(s, key)) + f(t)
  {
    ReplaceOver(s, WithStream(BookAt(s, key.base), key.epoch, t), f);
    SumUpdate(BookAt(s, key.base).streams, key.epoch, t, f);
  }

  function DeliveredStream(st: Stream, amount: nat): Stream {
    st.(delivered := st.delivered + amount)
  }

  lemma DeliveryMovesStock(s: State, key: Key, amount: nat)
    requires StockInv(s.books, s.purchasedOutstanding, s.purchasedSpent, s.ready, s.paidTotal)
    requires key.epoch in BookAt(s, key.base).streams && BookAt(s, key.base).base == key.base
    requires StreamOf(s, key).isSealed
    ensures var t := DeliveredStream(StreamOf(s, key), amount);
            StockInv(s.books[key.base := WithStream(BookAt(s, key.base), key.epoch, t)], s.purchasedOutstanding,
                     s.purchasedSpent, Plus(s.ready, t.entryAsset, amount), s.paidTotal)
  {
    var t := DeliveredStream(StreamOf(s, key), amount);
    var books := s.books[key.base := WithStream(BookAt(s, key.base), key.epoch, t)];
    forall a
      ensures Sum(books, Over(SyncedOf(a))) == Sum(s.books, Over(SyncedOf(a)))
      ensures Sum(books, Over(UnpaidOf(a))) == Sum(s.books, Over(UnpaidOf(a)))
      ensures Sum(books, Over(DeliveredOf(a)))
              == Sum(s.books, Over(DeliveredOf(a))) + (if a == t.entryAsset then amount else 0)
    {
      EditStock(s, key, t, SyncedOf(a));
      EditStock(s, key, t, UnpaidOf(a));
      EditStock(s, key, t, DeliveredOf(a));
    }
  }

  /** A stream that is sealed is in its book, and editing its stock keeps the stream's own limits. */
  lemma SealedStreamExists(s: State, key: Key)
    requires Inv(s) && StreamOf(s, key).isSealed
    ensures key.epoch in BookAt(s, key.base).streams && BookAt(s, key.base).base == key.base
    ensures PaidInv(StreamOf(s, key), key.base.IsRaw(), N.VaultIds(s.nft), N.TotalSupply(s.nft))
  {
    hide Ledgered, N.Inv, StockInv, Sides, StreamShape, PaidInv, CustodyInv;
    BookOf(s, key.base);
  }

  lemma DeliverKeeps(s: State, key: Key, amount: nat)
    requires Inv(s)
    ensures Deliver(s, key, amount).Success? ==> Inv(Deliver(s, key, amount).value)
  {
    hide N.Inv, BooksInv, CustodyInv, StockInv, PaidInv;
    var st := StreamOf(s, key);
    if st.isSealed {
      SealedStreamExists(s, key);
      DeliverKeepsPaid(st, key.base.IsRaw(), N.VaultIds(s.nft), N.TotalSupply(s.nft), amount);
      StockEdit(s, key, DeliveredStream(st, amount));
      DeliveryMovesStock(s, key, amount);
    }
  }

  lemma ClaimForKeeps(s: State, asset: Address)
    requires Inv(s)
    ensures Inv(ClaimFor(s, asset))
  {
    hide N.Inv, BooksInv, CustodyInv, StockInv, HeldInv;
    ClaimMovesStock(s, asset);
    ClaimIsHeld(s, asset);
  }

  lemma ClaimMovesStock(s: State, asset: Address)
    requires StockInv(s.books, s.purchasedOutstanding, s.purchasedSpent, s.ready, s.paidTotal)
    ensures var c := ClaimFor(s, asset);
            StockInv(c.books, c.purchasedOutstanding, c.purchasedSpent, c.ready, c.paidTotal)
  {
    var c := ClaimFor(s, asset);
    forall a
      ensures Amount(c.paidTotal, a) + Amount(c.ready, a) == Amount(s.paidTotal, a) + Amount(s.ready, a)
      ensures Amount(s.paidTotal, a) <= Amount(c.paidTotal, a)
    {}
  }

  lemma ClaimIsHeld(s: State, asset: Address)
    requires HeldInv(s)
    ensures HeldInv(ClaimFor(s, asset))
  {
  }

  function SyncedStream(st: Stream): Stream {
    st.(purchasedRaw := st.delivered, purchasedAsset := st.entryAsset)
  }

  /** Nothing is synced that was not delivered. */
  lemma SyncedWithinDelivered(books: map<Base, Book>, vault: set<nat>, cards: nat, today: nat, a: Address)
    requires BooksInv(books, vault, cards, today)
    ensures Sum(books, Over(SyncedOf(a))) <= Sum(books, Over(DeliveredOf(a)))
  {
    hide Ledgered, Dated, Sides, StreamShape;
    forall base <- books ensures Over(SyncedOf(a))(books[base]) <= Over(DeliveredOf(a))(books[base]) {
      BookSyncedWithinDelivered(books[base], vault, cards, a);
    }
    SumMonotone(books, Over(SyncedOf(a)), Over(DeliveredOf(a)));
  }

  lemma BookSyncedWithinDelivered(b: Book, vault: set<nat>, cards: nat, a: Address)
    requires StreamsInv(b, vault, cards)
    ensures Sum(b.streams, SyncedOf(a)) <= Sum(b.streams, DeliveredOf(a))
  {
    hide Sides, StreamShape;
    SumMonotone(b.streams, SyncedOf(a), DeliveredOf(a));
  }

  lemma SyncMovesStock(s: State, key: Key, vault: set<nat>, cards: nat, today: nat)
    requires StockInv(s.books, s.purchasedOutstanding, s.purchasedSpent, s.ready, s.paidTotal)
    requires key.epoch in BookAt(s, key.base).streams && BookAt(s, key.base).base == key.base
    requires var st := StreamOf(s, key);
             st.isSealed && st.purchasedRaw <= st.delivered && Amount(s.ready, st.entryAsset) == 0
    requires BooksInv(s.books[key.base := WithStream(BookAt(s, key.base), key.epoch, SyncedStream(StreamOf(s, key)))],
                      vault, cards, today)
    ensures var st := StreamOf(s, key);
            StockInv(s.books[key.base := WithStream(BookAt(s, key.base), key.epoch, SyncedStream(st))],
                     Plus(s.purchasedOutstanding, st.entryAsset, st.delivered - st.purchasedRaw),
                     s.purchasedSpent, s.ready, s.paidTotal)
  {
    hide BooksInv;
    var st := StreamOf(s, key);
    var t := SyncedStream(st);
    var books := s.books[key.base := WithStream(BookAt(s, key.base), key.epoch, t)];
    forall a
      ensures Sum(books, Over(SyncedOf(a)))
              == Sum(s.books, Over(SyncedOf(a))) + (if a == st.entryAsset then st.delivered - st.purchasedRaw else 0)
      ensures Sum(books, Over(UnpaidOf(a)))
              == Sum(s.books, Over(UnpaidOf(a))) + (if a == st.entryAsset then st.delivered - st.purchasedRaw else 0)
      ensures Sum(books, Over(DeliveredOf(a))) == Sum(s.books, Over(DeliveredOf(a)))
    {
      EditStock(s, key, t, SyncedOf(a));
      EditStock(s, key, t, UnpaidOf(a));
      EditStock(s, key, t, DeliveredOf(a));
    }
    SyncedWithinDelivered(books, vault, cards, today, st.entryAsset);
  }

  /** Syncing never finds less delivered than before, and the coverage check never fails. */
  lemma SyncKeeps(s: State, key: Key, settles: bool)
    requires Inv(s)
    ensures var r := SyncPurchased(s, key, settles);
            && (r.Success? ==> Inv(r.value))
            && (r.Failure? ==> r.error in {NotEntry, Settlement})
  {
    hide N.Inv, BooksInv, CustodyInv, StockInv, HeldInv;
    var st := StreamOf(s, key);
    if st.isSealed && settles {
      SealedStreamExists(s, key);
      var c := ClaimFor(s, st.entryAsset);
      ClaimForKeeps(s, st.entryAsset);
      SyncKeepsPaid(st, key.base.IsRaw(), N.VaultIds(s.nft), N.TotalSupply(s.nft));
      StockEdit(c, key, SyncedStream(st));
      SyncMovesStock(c, key, N.VaultIds(s.nft), N.TotalSupply(s.nft), Today(s));
      SyncedState(c, key);
    }
  }

  lemma SyncedState(c: State, key: Key)
    requires N.Inv(c.nft) && NATIVE !in c.royaltyAssets && HeldInv(c) && StreamOf(c, key).entryAsset != NATIVE
    requires var st := StreamOf(c, key);
             var books := c.books[key.base := WithStream(BookAt(c, key.base), key.epoch, SyncedStream(st))];
             && st.purchasedRaw <= st.delivered && BookAt(c, key.base).base == key.base
             && BooksInv(books, N.VaultIds(c.nft), N.TotalSupply(c.nft), Today(c)) && CustodyInv(books, c.custody)
             && StockInv(books, Plus(c.purchasedOutstanding, st.entryAsset, st.delivered - st.purchasedRaw),
                         c.purchasedSpent, c.ready, c.paidTotal)
    ensures var st := StreamOf(c, key);
            var s' := WithBook(c, WithStream(BookAt(c, key.base), key.epoch, SyncedStream(st))).(
              purchasedOutstanding := Plus(c.purchasedOutstanding, st.entryAsset, st.delivered - st.purchasedRaw));
            Inv(s') && Amount(s'.purchasedOutstanding, st.entryAsset) <= Amount(s'.held, st.entryAsset)
  {
    hide N.Inv, BooksInv, CustodyInv, StockInv;
    var st := StreamOf(c, key);
    var s' := WithBook(c, WithStream(BookAt(c, key.base), key.epoch, SyncedStream(st))).(
      purchasedOutstanding := Plus(c.purchasedOutstanding, st.entryAsset, st.delivered - st.purchasedRaw));
    HeldCoversCustody(s', st.entryAsset);
  }

  // ---- Cards and time ----

  lemma DatesGrow(b: Book, today: nat, later: nat)
    requires Dated(b, today) && today <= later
    ensures Dated(b, later)
  {
  }

  /** Minting and transferring cards changes no card's credit, and time only passes. */
  lemma GrowthKeeps(s: State, nft: N.State, now: nat)
    requires Inv(s) && N.Inv(nft) && N.Grows(s.nft, nft) && s.now <= now
    ensures Inv(s.(nft := nft, now := now))
  {
    hide Ledgered, StreamsInv, Dated, CustodyInv, StockInv;
    var vault, cards := N.VaultIds(s.nft), N.TotalSupply(s.nft);
    forall base <- s.books
      ensures BookInv(s.books[base], N.VaultIds(nft), N.TotalSupply(nft)) && Dated(s.books[base], now / DAY)
    {
      GrowthKeepsBook(s.books[base], vault, cards, N.VaultIds(nft), N.TotalSupply(nft));
      DatesGrow(s.books[base], Today(s), now / DAY);
    }
  }

  lemma NFTKeeps(s: State, op: Op)
    requires Inv(s) && (op.OpTransfer? || op.OpConfigureVault? || op.OpSetMintCap?)
    ensures Inv(Step(s, op))
  {
    hide Inv, N.Inv, N.Grows, N.Transfer, N.ConfigureProtocolVault;
    CardsAreValid(s);
    match op
    case OpTransfer(from, to, id, authorized, eligible) =>
      N.TransferKeeps(s.nft, from, to, id, authorized, eligible);
      if Attempt(s, op).Success? { GrowthKeeps(s, Step(s, op).nft, s.now); }
    case OpConfigureVault(isGov, vault) =>
      N.ConfigureKeeps(s.nft, isGov, vault);
      if Attempt(s, op).Success? { GrowthKeeps(s, Step(s, op).nft, s.now); }
    case OpSetMintCap(isGov, cap) =>
      CapIsNoCard(s.nft, cap);
      if Attempt(s, op).Success? { GrowthKeeps(s, Step(s, op).nft, s.now); }
  }

  lemma CardsAreValid(s: State)
    requires Inv(s)
    ensures N.Inv(s.nft)
  {
  }

  lemma CapIsNoCard(nft: N.State, cap: nat)
    requires N.Inv(nft)
    ensures N.Inv(nft.(mintCap := cap)) && N.Grows(nft, nft.(mintCap := cap))
  {
    assert N.VaultIds(nft.(mintCap := cap)) == N.VaultIds(nft);
  }

  lemma MintAndCreditKeeps(s: State, r: Result<N.State, N.Error>, fee: nat)
    requires Inv(s) && (r.Success? ==> N.Inv(r.value) && N.Grows(s.nft, r.value))
    ensures MintAndCredit(s, r, fee).Success? ==> Inv(MintAndCredit(s, r, fee).value)
  {
    hide Inv, N.Inv, N.Grows, ReceiveNative;
    if r.Success? {
      GrowthKeeps(s, r.value, s.now);
      ReceiveNativeKeeps(s.(nft := r.value), Surcharge, N.Surcharge(fee));
    }
  }

  lemma MintsKeep(s: State, op: Op)
    requires Inv(s) && (op.OpMint? || op.OpMintProtocol? || op.OpGrantSponsored?)
    ensures Inv(Step(s, op))
  {
    hide Inv, N.Inv, N.Grows, N.Mint, N.MintProtocol, N.GrantSponsored, MintAndCredit;
    CardsAreValid(s);
    match op
    case OpMint(count, to, payment) =>
      N.MintKeeps(s.nft, count, to, payment);
      MintAndCreditKeeps(s, N.Mint(s.nft, count, to, payment), payment.fee);
    case OpMintProtocol(caller, count, payment) =>
      N.MintProtocolKeeps(s.nft, caller, count, payment);
      MintAndCreditKeeps(s, N.MintProtocol(s.nft, caller, count, payment), payment.fee);
    case OpGrantSponsored(isGov, recipient, consented, payment) =>
      N.GrantKeeps(s.nft, isGov, recipient, consented, payment);
      MintAndCreditKeeps(s, N.GrantSponsored(s.nft, isGov, recipient, consented, payment), payment.fee);
  }

  lemma QuietKeeps(s: State, op: Op)
    requires Inv(s) && (op.OpConfigureStaking? || op.OpTransferIn? || op.OpWait?)
    ensures Inv(Step(s, op))
  {
    hide BooksInv, N.Inv, CustodyInv, StockInv;
    if op.OpWait? {
      GrowthKeeps(s, s.nft, s.now + op.seconds);
    }
  }

  // ---- Runs ----

  lemma StepKeeps(s: State, op: Op)
    requires Inv(s)
    ensures Inv(Step(s, op))
  {
    hide Inv, OnFeeCredit, ReceiveNative, DepositRoyalty, SyncRoyalty, Pay, FundProtocol, SealDesk, Deliver, ClaimFor,
      SyncPurchased, MintAndCredit, LiftNFT;
    match op
    case OpFeeCredit(base, amount) => OnFeeCreditKeeps(s, base, amount);
    case OpNativeRoyalty(amount) => ReceiveNativeKeeps(s, Royalty, amount);
    case OpDepositRoyalty(asset, raw) => DepositRoyaltyKeeps(s, asset, raw);
    case OpSyncRoyalty(asset) => SyncRoyaltyKeeps(s, asset);
    case OpPay(id, keys, eligible, settles) => PayKeeps(s, id, keys, eligible, settles);
    case OpFundProtocol(key, settles) => FundProtocolKeeps(s, key, settles);
    case OpSealDesk(key, asset, settles) => SealKeeps(s, key, asset, settles);
    case OpDeliver(key, amount) => DeliverKeeps(s, key, amount);
    case OpClaimFor(asset) => ClaimForKeeps(s, asset);
    case OpSyncPurchased(key, settles) => SyncKeeps(s, key, settles);
    case OpMint(_, _, _) => MintsKeep(s, op);
    case OpMintProtocol(_, _, _) => MintsKeep(s, op);
    case OpGrantSponsored(_, _, _, _) => MintsKeep(s, op);
    case OpTransfer(_, _, _, _, _) => NFTKeeps(s, op);
    case OpConfigureVault(_, _) => NFTKeeps(s, op);
    case OpSetMintCap(_, _) => NFTKeeps(s, op);
    case _ => QuietKeeps(s, op);
  }

  lemma {:induction false} RunKeeps(s: State, ops: seq<Op>)
    requires Inv(s)
    ensures Inv(Run(s, ops))
    decreases |ops|
  {
    hide Inv, Step;
    if ops != [] {
      StepKeeps(s, ops[0]);
      RunKeeps(Step(s, ops[0]), ops[1..]);
    }
  }

  lemma ReachableInv(royaltyAssets: set<Address>, now: nat, ops: seq<Op>)
    requires NATIVE !in royaltyAssets
    ensures Inv(Run(Deployed(royaltyAssets, now), ops))
  {
    hide N.Inv, Run;
    N.DeployedInv();
    RunKeeps(Deployed(royaltyAssets, now), ops);
  }
}
