/** One book of DeskRewards: what its streams paid, forwarded and sealed never exceeds what it received. */
module DeskPayouts {
  import opened Balances
  import opened FloorMath
  import opened MapSums
  import opened Outcomes
  import opened DeskLedgerModel
  import opened DeskLedgerRuns
  import opened DeskRewardsModel

  function Units(): nat -> int {
    (n: nat) => n
  }

  ghost function PaidSum(st: Stream): int {
    Sum<nat, nat>(st.paidRaw, Units())
  }

  /** Whole units that left custody on behalf of a stream: card payouts or the sealed budget, and forwarding. */
  ghost function Drawn(isRaw: bool): Stream -> int {
    (st: Stream) => (if isRaw then PaidSum(st) else if st.isSealed then Budget(st) else 0) + st.delegatedFunded
  }

  ghost function TotalDrawn(b: Book): int {
    Sum(b.streams, Drawn(b.base.IsRaw()))
  }

  // ---- The invariant ----

  /** Only ordinary cards were paid, none above what it is owed; stock exists only for sealed native streams. */
  ghost predicate PaidInv(st: Stream, isRaw: bool, vault: set<nat>, cards: nat) {
    && (forall id <- st.paidRaw :: 1 <= id <= cards && id !in vault && 0 <= Credit27(st, id)
                                   && st.paidRaw[id] <= Owed(st, isRaw, Credit27(st, id)))
    && PRECISION * st.delegatedFunded <= st.delegatedCredit27
    && (st.isSealed ==> !isRaw && st.entryAsset != NATIVE && 0 < st.totalCredit27)
    && (!st.isSealed ==> st.delivered == 0)
    && st.purchasedRaw <= st.delivered
    && (0 < st.purchasedRaw ==> st.purchasedAsset == st.entryAsset)
  }

  ghost predicate StreamInv(st: Stream, isRaw: bool, vault: set<nat>, cards: nat) {
    StreamShape(st) && Sides(st, vault, cards) && PaidInv(st, isRaw, vault, cards)
  }

  ghost predicate Ledgered(b: Book, cards: nat) {
    BookShape(b, cards) && Refines(b) && Conserves(b)
  }

  ghost predicate StreamsInv(b: Book, vault: set<nat>, cards: nat) {
    forall e <- b.streams :: StreamInv(b.streams[e], b.base.IsRaw(), vault, cards)
  }

  ghost predicate BookInv(b: Book, vault: set<nat>, cards: nat) {
    Ledgered(b, cards) && StreamsInv(b, vault, cards) && b.due + TotalDrawn(b) <= TotalReceived(b)
  }

  /** No credit lies in the future, and a sealed stream's day is over. */
  predicate Dated(b: Book, today: nat) {
    && (b.latest.Epoch? ==> b.latest.day <= today)
    && (forall e <- b.streams :: b.streams[e].isSealed ==> e < today)
  }

  /** What the ledger still owes is no part of what the book records. */
  lemma DueIsApart(b: Book, due: nat, vault: set<nat>, cards: nat, today: nat)
    requires Ledgered(b, cards) && StreamsInv(b, vault, cards) && Dated(b, today)
    ensures var b' := b.(due := due);
            && Ledgered(b', cards) && StreamsInv(b', vault, cards) && Dated(b', today)
            && TotalReceived(b') == TotalReceived(b) && TotalDrawn(b') == TotalDrawn(b)
  {
    hide BookShape, Agrees, Sum, EagerOf, Undivided27, StreamInv, Countable;
    DueKeepsShape(b, due, cards);
    DueKeepsAgreement(b, due, EagerOf(b.log));
  }

  lemma DueKeepsShape(b: Book, due: nat, cards: nat)
    requires BookShape(b, cards)
    ensures BookShape(b.(due := due), cards) && Undivided27(b.(due := due)) == Undivided27(b)
  {
  }

  lemma DueKeepsAgreement(b: Book, due: nat, g: Eager)
    requires Agrees(b, g)
    ensures Agrees(b.(due := due), g)
  {
  }

  // ---- Payouts stay below credits ----

  /** The payments to cards 1..k. */
  function PaidTo(m: map<nat, nat>, k: nat): nat {
    if k == 0 then 0 else PaidTo(m, k - 1) + Amount(m, k)
  }

  lemma {:induction false} PaidToEveryone(m: map<nat, nat>, k: nat)
    requires forall id <- m :: 1 <= id <= k
    ensures Sum<nat, nat>(m, Units()) == PaidTo(m, k)
    decreases k
  {
    if k == 0 {
      assert m == map[];
    } else {
      PaidToEveryone(m - {k}, k - 1);
      PaidToIgnores(m, m - {k}, k - 1);
      if k in m {
        SumSplit<nat, nat>(m, k, Units());
      } else {
        assert m - {k} == m;
      }
    }
  }

  lemma {:induction false} PaidToIgnores(m: map<nat, nat>, m': map<nat, nat>, k: nat)
    requires forall id: nat :: 1 <= id <= k ==> Amount(m, id) == Amount(m', id)
    ensures PaidTo(m, k) == PaidTo(m', k)
  {
    if k != 0 {
      assert Amount(m, k) == Amount(m', k);
      PaidToIgnores(m, m', k - 1);
    }
  }

  /** One card's contribution to the ordinary side. */
  function OrdinaryCredit(st: Stream, vault: set<nat>, id: nat): int {
    if id in vault then 0 else Credit27(st, id)
  }

  predicate Within(scale: nat, paid: nat, weight: nat, credit: int) {
    scale * paid <= weight * credit
  }

  /** If every payment is within its card's weighted credit, the payments together are within the side's. */
  lemma {:induction false} PaymentsWithinSide(m: map<nat, nat>, st: Stream, vault: set<nat>, k: nat,
                                              scale: nat, weight: nat)
    requires forall id: nat | 1 <= id <= k :: Within(scale, Amount(m, id), weight, OrdinaryCredit(st, vault, id))
    ensures scale * PaidTo(m, k) <= weight * SideCredit27(st, vault, false, k)
  {
    if k != 0 {
      PaymentsWithinSide(m, st, vault, k - 1, scale, weight);
      assert Within(scale, Amount(m, k), weight, OrdinaryCredit(st, vault, k));
      Distribute(PaidTo(m, k - 1), Amount(m, k), scale);
      Distribute(SideCredit27(st, vault, false, k - 1), OrdinaryCredit(st, vault, k), weight);
    }
  }

  lemma OwedBounds(st: Stream, isRaw: bool, credit: nat)
    ensures isRaw ==> PRECISION * Owed(st, isRaw, credit) <= credit
    ensures !isRaw ==> st.totalCredit27 * Owed(st, isRaw, credit) <= st.purchasedRaw * credit
    ensures !isRaw && st.purchasedRaw == 0 ==> Owed(st, isRaw, credit) == 0
  {
    if isRaw {
      DivBounds(credit, PRECISION);
    } else if st.totalCredit27 != 0 && st.purchasedRaw == 0 {
      MulDivUnique(credit, 0, st.totalCredit27, 0);
    }
  }

  /** The cards of a raw stream together received at most the whole units of its ordinary credit. */
  lemma RawPaymentsWithinCredit(st: Stream, vault: set<nat>, cards: nat)
    requires StreamInv(st, true, vault, cards)
    ensures 0 <= PaidSum(st) && PRECISION * PaidSum(st) <= st.totalCredit27
  {
    PaidToEveryone(st.paidRaw, cards);
    forall id: nat | 1 <= id <= cards
      ensures Within(PRECISION, Amount(st.paidRaw, id), 1, OrdinaryCredit(st, vault, id))
    {
      CoveredIffWithinSupply(st, id);
      if id in st.paidRaw { OwedBounds(st, true, Credit27(st, id)); }
    }
    PaymentsWithinSide(st.paidRaw, st, vault, cards, PRECISION, 1);
  }

  /** The cards of a native stream together received at most the stock bought for it. */
  lemma StockPaymentsWithinPurchase(st: Stream, vault: set<nat>, cards: nat)
    requires StreamInv(st, false, vault, cards)
    ensures 0 <= PaidSum(st) <= st.purchasedRaw
  {
    PaidToEveryone(st.paidRaw, cards);
    if st.purchasedRaw == 0 {
      forall id: nat | 1 <= id <= cards
        ensures Within(1, Amount(st.paidRaw, id), 0, OrdinaryCredit(st, vault, id))
      {
        if id in st.paidRaw { OwedBounds(st, false, Credit27(st, id)); }
      }
      PaymentsWithinSide(st.paidRaw, st, vault, cards, 1, 0);
    } else {
      forall id: nat | 1 <= id <= cards
        ensures Within(st.totalCredit27, Amount(st.paidRaw, id), st.purchasedRaw, OrdinaryCredit(st, vault, id))
      {
        StockPaymentWithinShare(st, vault, cards, id);
      }
      PaymentsWithinSide(st.paidRaw, st, vault, cards, st.totalCredit27, st.purchasedRaw);
      CancelLe(PaidSum(st), st.purchasedRaw, st.totalCredit27);
    }
  }

  lemma StockPaymentWithinShare(st: Stream, vault: set<nat>, cards: nat, id: nat)
    requires StreamShape(st) && PaidInv(st, false, vault, cards) && 1 <= id <= cards
    ensures Within(st.totalCredit27, Amount(st.paidRaw, id), st.purchasedRaw, OrdinaryCredit(st, vault, id))
  {
    CoveredIffWithinSupply(st, id);
    if id in st.paidRaw {
      var credit := Credit27(st, id);
      var owed := Owed(st, false, credit);
      OwedBounds(st, false, credit);
      WithinShare(st.totalCredit27, st.paidRaw[id], owed, st.purchasedRaw, credit);
    } else {
      WithinShare(st.totalCredit27, 0, 0, st.purchasedRaw, OrdinaryCredit(st, vault, id));
    }
  }

  lemma WithinShare(scale: nat, paid: nat, owed: nat, weight: nat, credit: int)
    requires paid <= owed && 0 <= credit && (owed == 0 || scale * owed <= weight * credit)
    ensures Within(scale, paid, weight, credit)
  {
    MulLe(paid, owed, scale);
    MulLe(0, credit, weight);
  }

  lemma StreamDrawsWithinCredit(st: Stream, isRaw: bool, vault: set<nat>, cards: nat)
    requires StreamInv(st, isRaw, vault, cards)
    ensures 0 <= Drawn(isRaw)(st) && PRECISION * Drawn(isRaw)(st) <= Credited27()(st)
  {
    if isRaw {
      RawPaymentsWithinCredit(st, vault, cards);
      Distribute(PaidSum(st), st.delegatedFunded, PRECISION);
    } else {
      DivBounds(st.totalCredit27, PRECISION);
      Distribute(Budget(st), st.delegatedFunded, PRECISION);
    }
  }

  /** Over all its days, a book never gave out more than it received. */
  lemma DrawnWithinReceived(b: Book, vault: set<nat>, cards: nat)
    requires Conserves(b) && StreamsInv(b, vault, cards)
    ensures 0 <= TotalDrawn(b) <= TotalReceived(b)
  {
    var f := Drawn(b.base.IsRaw());
    forall e <- b.streams ensures 0 <= f(b.streams[e]) && PRECISION * f(b.streams[e]) <= Credited27()(b.streams[e]) {
      StreamDrawsWithinCredit(b.streams[e], b.base.IsRaw(), vault, cards);
    }
    SumNonNegative(b.streams, f);
    SumScaledBound(b.streams, f, Credited27(), PRECISION);
    CancelLe(TotalDrawn(b), TotalReceived(b), PRECISION);
  }

  // ---- A credit ----

  /** Credit is only added, so nobody's payment overtakes it; a sealed stream is past and not credited any more. */
  lemma RaiseKeepsPaid(st: Stream, t: Stream, fee: Fee, j: nat, q: nat, isRaw: bool, vault: set<nat>)
    requires Raised(st, t, fee, q) && Totalled(st, t, fee, |vault|, j, q)
    requires !st.isSealed && PaidInv(st, isRaw, vault, fee.cards)
    ensures PaidInv(t, isRaw, vault, fee.cards)
  {
    hide Credit27, Owed, StreamShape;
    forall id <- t.paidRaw ensures 0 <= Credit27(t, id) && t.paidRaw[id] <= Owed(t, isRaw, Credit27(t, id)) {
      OwedGrowsWithCredit(st, t, isRaw, Credit27(st, id), Credit27(t, id));
    }
  }

  lemma OwedGrowsWithCredit(st: Stream, t: Stream, isRaw: bool, credit: nat, credit': nat)
    requires credit <= credit' && st.purchasedRaw == 0
    ensures Owed(st, isRaw, credit) <= Owed(t, isRaw, credit')
  {
    if isRaw {
      DivBounds(credit, PRECISION);
      DivBounds(credit', PRECISION);
      CancelLt(credit / PRECISION, credit' / PRECISION + 1, PRECISION);
    } else {
      OwedBounds(st, false, credit);
    }
  }

  /** A total over streams that looks only at what `_credit` leaves alone. */
  ghost predicate SeesOnlyPayouts(f: Stream -> int) {
    && f(FRESH) == 0
    && forall st: Stream, t: Stream ::
         t == st.(counter := t.counter, rem := t.rem, supply := t.supply, totalCredit27 := t.totalCredit27,
                  received := t.received, generations := t.generations, delegatedCredit27 := t.delegatedCredit27)
         && (st.isSealed ==> t.totalCredit27 == st.totalCredit27)
         ==> f(t) == f(st)
  }

  lemma CreditKeepsTotals(b: Book, b': Book, fee: Fee, j: nat, q: nat, f: Stream -> int)
    requires Logged(b, b', fee, j) && Raised(StreamAt(b, fee.epoch), b'.streams[fee.epoch], fee, q)
    requires SeesOnlyPayouts(f) && !StreamAt(b, fee.epoch).isSealed
    ensures Sum(b'.streams, f) == Sum(b.streams, f)
  {
    forall st: Stream, rem: nat ensures f(st.(rem := rem)) == f(st) {
      var t := st.(rem := rem);
      assert t == st.(counter := t.counter, rem := t.rem, supply := t.supply, totalCredit27 := t.totalCredit27,
                      received := t.received, generations := t.generations, delegatedCredit27 := t.delegatedCredit27);
    }
    SumAfterCredit(b, b', fee.epoch, f);
  }

  lemma DrawnSeesOnlyPayouts(isRaw: bool)
    ensures SeesOnlyPayouts(Drawn(isRaw))
  {
    assert PaidSum(FRESH) == 0;
  }

  lemma CreditKeepsStreams(b: Book, b': Book, fee: Fee, j: nat, q: nat, vault: set<nat>)
    requires StreamsInv(b, vault, fee.cards) && Dated(b, fee.epoch) && (forall id <- vault :: 1 <= id <= fee.cards)
    requires Logged(b, b', fee, j) && Raised(StreamAt(b, fee.epoch), b'.streams[fee.epoch], fee, q)
    requires Totalled(StreamAt(b, fee.epoch), b'.streams[fee.epoch], fee, |vault|, j, q)
    ensures StreamsInv(b', vault, fee.cards) && Dated(b', fee.epoch)
  {
    hide Credit27, Undivided27, Amount, SideCredit27, SideCount, StreamShape, PaidInv, Sides;
    var isRaw := b.base.IsRaw();
    CreditKeepsSides(b, b', fee, j, q, vault);
    FreshIsPaid(isRaw, vault, fee.cards);
    RaiseKeepsPaid(StreamAt(b, fee.epoch), b'.streams[fee.epoch], fee, j, q, isRaw, vault);
    forall e <- b'.streams | e != fee.epoch ensures StreamInv(b'.streams[e], isRaw, vault, fee.cards) {
      RemainderIsNotShape(b.streams[e], 0);
      RemainderIsNotPaid(b.streams[e], isRaw, vault, fee.cards);
    }
  }

  lemma FreshIsPaid(isRaw: bool, vault: set<nat>, cards: nat)
    ensures PaidInv(FRESH, isRaw, vault, cards)
  {
  }

  lemma RemainderIsNotPaid(st: Stream, isRaw: bool, vault: set<nat>, cards: nat)
    requires PaidInv(st, isRaw, vault, cards)
    ensures PaidInv(st.(rem := 0), isRaw, vault, cards)
  {
    forall id <- st.paidRaw ensures Credit27(st.(rem := 0), id) == Credit27(st, id) {}
  }

  /** A credited book has received `amount` more, given out nothing, and keeps everything the ledger promises. */
  lemma CreditKeepsBook(b: Book, today: nat, cards: nat, vault: set<nat>, amount: nat)
    requires Ledgered(b, cards) && StreamsInv(b, vault, cards) && Dated(b, today)
    requires 0 < cards && |vault| <= cards && forall id <- vault :: 1 <= id <= cards
    ensures var b' := Credit(b, today, cards, |vault|, amount);
            && b'.base == b.base && b'.due == b.due
            && Ledgered(b', cards) && StreamsInv(b', vault, cards) && Dated(b', today)
            && TotalReceived(b') == TotalReceived(b) + amount && TotalDrawn(b') == TotalDrawn(b)
            && (forall f :: SeesOnlyPayouts(f) ==> Sum(b'.streams, f) == Sum(b.streams, f))
  {
    var fee := Fee(today, cards, amount);
    var q := CreditEffect(b, fee, |vault|);
    var b', j := Credit(b, today, cards, |vault|, amount), Joining27(b, today, cards);
    CreditKeepsShape(b, b', fee, j, q);
    CreditRefines(b, b', fee, |vault|, q);
    CreditConserves(b, b', fee, |vault|, j, q);
    CreditKeepsStreams(b, b', fee, j, q, vault);
    SumAfterCredit(b, b', today, Received());
    DrawnSeesOnlyPayouts(b.base.IsRaw());
    forall f | SeesOnlyPayouts(f) ensures Sum(b'.streams, f) == Sum(b.streams, f) {
      CreditKeepsTotals(b, b', fee, j, q, f);
    }
  }

  // ---- A change to what a stream paid out ----

  /** The credit side of a stream is as it was. */
  predicate SameCredits(st: Stream, t: Stream) {
    t == st.(delegatedFunded := t.delegatedFunded, isSealed := t.isSealed, entryAsset := t.entryAsset,
             delivered := t.delivered, purchasedRaw := t.purchasedRaw, purchasedAsset := t.purchasedAsset,
             paidRaw := t.paidRaw)
  }

  lemma EditKeepsShape(b: Book, e: nat, t: Stream, cards: nat)
    requires BookShape(b, cards) && e in b.streams && SameCredits(b.streams[e], t)
    ensures BookShape(WithStream(b, e, t), cards)
    ensures Undivided27(WithStream(b, e, t)) == Undivided27(b)
  {
    hide Credit27, SameCredits, StreamShape;
    EditKeepsStreamShape(b.streams[e], t);
  }

  lemma EditKeepsStreamShape(st: Stream, t: Stream)
    requires StreamShape(st) && SameCredits(st, t)
    ensures StreamShape(t) && t.supply == st.supply && t.rem == st.rem
  {
  }

  lemma EditKeepsAgreement(b: Book, e: nat, t: Stream, g: Eager)
    requires Agrees(b, g) && e in b.streams && SameCredits(b.streams[e], t)
    requires Undivided27(WithStream(b, e, t)) == Undivided27(b)
    ensures Agrees(WithStream(b, e, t), g)
  {
    var b' := WithStream(b, e, t);
    forall d, id: nat | d in b'.streams && 0 < id ensures Credit27(b'.streams[d], id) == EagerShare(g, d, id) {
      assert Credit27(b.streams[d], id) == EagerShare(g, d, id);
    }
    assert b'.streams.Keys == b.streams.Keys;
  }

  lemma EditConserves(b: Book, e: nat, t: Stream)
    requires Conserves(b) && e in b.streams && SameCredits(b.streams[e], t)
    requires Undivided27(WithStream(b, e, t)) == Undivided27(b)
    ensures Conserves(WithStream(b, e, t)) && TotalReceived(WithStream(b, e, t)) == TotalReceived(b)
  {
    SumUpdate(b.streams, e, t, Received());
    SumUpdate(b.streams, e, t, Credited27());
  }

  lemma EditKeepsLedger(b: Book, e: nat, t: Stream, cards: nat)
    requires Ledgered(b, cards) && e in b.streams && SameCredits(b.streams[e], t)
    ensures Ledgered(WithStream(b, e, t), cards)
    ensures TotalReceived(WithStream(b, e, t)) == TotalReceived(b)
  {
    EditKeepsShape(b, e, t, cards);
    EditKeepsAgreement(b, e, t, EagerOf(b.log));
    EditConserves(b, e, t);
  }

  lemma EditKeepsStreams(b: Book, e: nat, t: Stream, vault: set<nat>, cards: nat)
    requires StreamsInv(b, vault, cards) && e in b.streams
    requires SameCredits(b.streams[e], t) && PaidInv(t, b.base.IsRaw(), vault, cards)
    ensures StreamsInv(WithStream(b, e, t), vault, cards)
  {
    SidesSeeOnlyCredits(b.streams[e], t, vault, false, cards);
    SidesSeeOnlyCredits(b.streams[e], t, vault, true, cards);
    assert StreamInv(t, b.base.IsRaw(), vault, cards);
  }

  lemma {:induction false} SidesSeeOnlyCredits(st: Stream, t: Stream, vault: set<nat>, delegated: bool, k: nat)
    requires SameCredits(st, t)
    ensures SideCredit27(t, vault, delegated, k) == SideCredit27(st, vault, delegated, k)
  {
    if k != 0 {
      SidesSeeOnlyCredits(st, t, vault, delegated, k - 1);
    }
  }

  /** Editing a stream's payouts within their limits keeps the book, and its limit on what was given out. */
  lemma EditKeepsBook(b: Book, e: nat, t: Stream, vault: set<nat>, cards: nat)
    requires Ledgered(b, cards) && StreamsInv(b, vault, cards) && e in b.streams
    requires SameCredits(b.streams[e], t) && PaidInv(t, b.base.IsRaw(), vault, cards)
    ensures var b' := WithStream(b, e, t);
            && Ledgered(b', cards) && StreamsInv(b', vault, cards)
            && TotalReceived(b') == TotalReceived(b)
            && TotalDrawn(b') == TotalDrawn(b) - Drawn(b.base.IsRaw())(b.streams[e]) + Drawn(b.base.IsRaw())(t)
            && TotalDrawn(b') <= TotalReceived(b')
  {
    var b' := WithStream(b, e, t);
    EditKeepsLedger(b, e, t, cards);
    EditKeepsStreams(b, e, t, vault, cards);
    SumUpdate(b.streams, e, t, Drawn(b.base.IsRaw()));
    DrawnWithinReceived(b', vault, cards);
  }

  // ---- More cards ----

  lemma GrowthKeepsStream(st: Stream, isRaw: bool, vault: set<nat>, cards: nat, vault': set<nat>, cards': nat)
    requires StreamInv(st, isRaw, vault, cards) && st.supply <= cards <= cards'
    requires forall id :: 1 <= id <= cards ==> (id in vault <==> id in vault')
    ensures StreamInv(st, isRaw, vault', cards')
  {
    SideIgnoresNewCards(st, vault, vault', false, cards', cards);
    SideIgnoresNewCards(st, vault, vault', true, cards', cards);
  }

  lemma GrowthKeepsBook(b: Book, vault: set<nat>, cards: nat, vault': set<nat>, cards': nat)
    requires BookInv(b, vault, cards) && cards <= cards'
    requires forall id :: 1 <= id <= cards ==> (id in vault <==> id in vault')
    ensures BookInv(b, vault', cards')
  {
    forall e <- b.streams ensures StreamInv(b.streams[e], b.base.IsRaw(), vault', cards') {
      GrowthKeepsStream(b.streams[e], b.base.IsRaw(), vault, cards, vault', cards');
    }
  }

  // ---- The five edits ----

  /** `owed - paidRaw` never underflows. */
  lemma ClaimableNeverUnderflows(st: Stream, isRaw: bool, vault: set<nat>, cards: nat, id: nat)
    requires StreamShape(st) && PaidInv(st, isRaw, vault, cards) && 0 < id
    ensures 0 <= Credit27(st, id)
    ensures Claimable(st, isRaw, id) == Success(Owed(st, isRaw, Credit27(st, id)) - Amount(st.paidRaw, id))
  {
    CoveredIffWithinSupply(st, id);
  }

  function PaidStream(st: Stream, id: nat, amount: nat): Stream {
    st.(paidRaw := st.paidRaw[id := Amount(st.paidRaw, id) + amount])
  }

  lemma PayKeepsPaid(st: Stream, isRaw: bool, vault: set<nat>, cards: nat, id: nat, amount: nat)
    requires StreamShape(st) && PaidInv(st, isRaw, vault, cards) && 1 <= id <= cards && id !in vault
    requires Claimable(st, isRaw, id) == Success(amount)
    ensures var t := PaidStream(st, id, amount);
            SameCredits(st, t) && PaidInv(t, isRaw, vault, cards) && PaidSum(t) == PaidSum(st) + amount
  {
    hide StreamShape, Credit27, Owed;
    ClaimableNeverUnderflows(st, isRaw, vault, cards, id);
    SumUpdate<nat, nat>(st.paidRaw, id, Amount(st.paidRaw, id) + amount, Units());
    var t := PaidStream(st, id, amount);
    forall i <- t.paidRaw
      ensures 1 <= i <= cards && i !in vault && 0 <= Credit27(t, i) && t.paidRaw[i] <= Owed(t, isRaw, Credit27(t, i))
    {
      OwedIgnoresPayments(st, t, isRaw, i);
      if i != id {
        assert i in st.paidRaw && t.paidRaw[i] == st.paidRaw[i];
      }
    }
  }

  lemma OwedIgnoresPayments(st: Stream, t: Stream, isRaw: bool, i: nat)
    requires t == st.(paidRaw := t.paidRaw)
    ensures Credit27(t, i) == Credit27(st, i)
    ensures 0 <= Credit27(st, i) ==> Owed(t, isRaw, Credit27(t, i)) == Owed(st, isRaw, Credit27(st, i))
  {
  }

  lemma FundKeepsPaid(st: Stream, isRaw: bool, vault: set<nat>, cards: nat)
    requires PaidInv(st, isRaw, vault, cards)
    ensures Fundable(st).Success?
    ensures var t := st.(delegatedFunded := st.delegatedFunded + Fundable(st).value);
            SameCredits(st, t) && PaidInv(t, isRaw, vault, cards)
  {
    DivBounds(st.delegatedCredit27, PRECISION);
    CancelLt(st.delegatedFunded, st.delegatedCredit27 / PRECISION + 1, PRECISION);
    var t := st.(delegatedFunded := st.delegatedFunded + Fundable(st).value);
    forall id <- st.paidRaw ensures Credit27(t, id) == Credit27(st, id) {}
  }

  lemma SealKeepsPaid(st: Stream, vault: set<nat>, cards: nat, asset: Address)
    requires PaidInv(st, false, vault, cards) && !st.isSealed && 0 < Budget(st) && asset != NATIVE
    ensures var t := st.(isSealed := true, entryAsset := asset);
            SameCredits(st, t) && PaidInv(t, false, vault, cards)
  {
    var t := st.(isSealed := true, entryAsset := asset);
    forall id <- st.paidRaw ensures Credit27(t, id) == Credit27(st, id) {}
  }

  lemma DeliverKeepsPaid(st: Stream, isRaw: bool, vault: set<nat>, cards: nat, amount: nat)
    requires PaidInv(st, isRaw, vault, cards) && st.isSealed
    ensures var t := st.(delivered := st.delivered + amount);
            SameCredits(st, t) && PaidInv(t, isRaw, vault, cards)
  {
    var t := st.(delivered := st.delivered + amount);
    forall id <- st.paidRaw ensures Credit27(t, id) == Credit27(st, id) {}
  }

  /** More bought stock never lowers what a card is owed. */
  lemma OwedGrowsWithPurchase(st: Stream, t: Stream, credit: nat)
    requires t.totalCredit27 == st.totalCredit27 && st.purchasedRaw <= t.purchasedRaw
    ensures Owed(st, false, credit) <= Owed(t, false, credit)
  {
    if st.totalCredit27 != 0 {
      var q, q' := MulDiv(credit, st.purchasedRaw, st.totalCredit27), MulDiv(credit, t.purchasedRaw, st.totalCredit27);
      MulLe(st.purchasedRaw, t.purchasedRaw, credit);
      CancelLt(q, q' + 1, st.totalCredit27) by { Distribute(q', 1, st.totalCredit27); }
    }
  }

  lemma SyncKeepsPaid(st: Stream, isRaw: bool, vault: set<nat>, cards: nat)
    requires PaidInv(st, isRaw, vault, cards) && st.isSealed
    ensures var t := st.(purchasedRaw := st.delivered, purchasedAsset := st.entryAsset);
            SameCredits(st, t) && PaidInv(t, isRaw, vault, cards)
  {
    var t := st.(purchasedRaw := st.delivered, purchasedAsset := st.entryAsset);
    forall id <- st.paidRaw ensures st.paidRaw[id] <= Owed(t, isRaw, Credit27(t, id)) {
      assert Credit27(t, id) == Credit27(st, id);
      OwedGrowsWithPurchase(st, t, Credit27(st, id));
    }
  }
}
