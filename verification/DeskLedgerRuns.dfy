/** The lazy credit ledger agrees with the eager one, loses nothing, and splits exactly between the two sides. */
module DeskLedgerRuns {
  import opened Balances
  import opened FloorMath
  import opened MapSums
  import opened DeskLedgerModel

  // ---- The invariant ----

  /** Generations strictly grow, end at the supply, and start at a counter that never goes back. */
  ghost predicate StreamShape(st: Stream) {
    var gs := st.generations;
    && (if gs == [] then st.supply == 0 else 0 < gs[0].upperId && gs[|gs| - 1].upperId == st.supply)
    && (forall i, j :: 0 <= i < j < |gs| ==>
                         gs[i].upperId < gs[j].upperId && gs[i].initialCounter <= gs[j].initialCounter)
    && (forall i :: 0 <= i < |gs| ==> gs[i].initialCounter <= st.counter)
  }

  /** Only the latest stream has a remainder, and only the day after it has one waiting. */
  ghost predicate BookShape(b: Book, cards: nat) {
    && (forall e <- b.streams :: StreamShape(b.streams[e]) && 0 < b.streams[e].supply <= cards)
    && (match b.latest
        case Never => b.streams == map[] && b.nextEpochRemainder == map[]
        case Epoch(day) =>
          && day in b.streams
          && (forall e <- b.streams :: e <= day && (e != day ==> b.streams[e].rem == 0))
          && (forall e <- b.nextEpochRemainder :: e == day + 1))
  }

  /** The book says of every card, and of what is left over, exactly what the eager ledger says. */
  ghost predicate Refines(b: Book) {
    Countable(b.log) && Agrees(b, EagerOf(b.log))
  }

  ghost predicate Agrees(b: Book, g: Eager) {
    && g.latest == b.latest
    && g.credits.Keys == b.streams.Keys
    && (forall e <- b.streams :: |g.credits[e]| == b.streams[e].supply)
    && (forall e, id: nat :: e in b.streams && 0 < id ==> Credit27(b.streams[e], id) == EagerShare(g, e, id))
    && Undivided27(b) == g.carry + g.parked
    && (b.latest.Epoch? ==> g.carry == StreamAt(b, b.latest.day).rem && g.supply == StreamAt(b, b.latest.day).supply)
  }

  ghost predicate Conserves(b: Book) {
    PRECISION * TotalReceived(b) == TotalCredited27(b) + Undivided27(b)
  }

  // ---- Binary search over generations ----

  lemma FirstCoveringIs(gs: seq<Generation>, id: nat, low: nat)
    requires low <= |gs| && forall j :: 0 <= j < low ==> gs[j].upperId < id
    requires low == |gs| || id <= gs[low].upperId
    ensures FirstCovering(gs, id) == low
  {
  }

  /** Where the search ends decides the credit, which is never negative. */
  lemma SearchFinds(st: Stream, id: nat, low: nat)
    requires StreamShape(st) && low <= |st.generations|
    requires forall j :: 0 <= j < low ==> st.generations[j].upperId < id
    requires forall j :: low <= j < |st.generations| ==> id <= st.generations[j].upperId
    ensures 0 <= Credit27(st, id)
            == if low == |st.generations| then 0 else st.counter - st.generations[low].initialCounter
  {
    FirstCoveringIs(st.generations, id, low);
  }

  /** A card has no credit in a stream exactly until a generation reaches it. */
  lemma CoveredIffWithinSupply(st: Stream, id: nat)
    requires StreamShape(st) && 0 < id
    ensures FirstCovering(st.generations, id) < |st.generations| <==> id <= st.supply
    ensures st.supply < id ==> Credit27(st, id) == 0
    ensures 0 <= Credit27(st, id)
  {
    var gs := st.generations;
    var low := FirstCovering(gs, id);
    if gs != [] && low == |gs| {
      assert gs[|gs| - 1].upperId < id;
    }
    if low < |gs| - 1 {
      assert gs[low].upperId < gs[|gs| - 1].upperId;
    }
  }

  // ---- One stream, one credit ----

  /** A new generation at the current counter changes nobody's credit. */
  lemma NextGenerationKeeps(st: Stream, cards: nat)
    requires StreamShape(st) && st.supply <= cards && 0 < cards
    ensures var t := NextGeneration(st, cards);
            && StreamShape(t) && t.supply == cards
            && forall id: nat :: 0 < id ==> Credit27(t, id) == Credit27(st, id)
  {
    if st.supply != cards {
      var gs := st.generations;
      if |gs| > 1 {
        assert forall i :: 0 <= i < |gs| - 1 ==> gs[i].upperId < gs[|gs| - 1].upperId;
      }
      forall id: nat | 0 < id ensures Credit27(NextGeneration(st, cards), id) == Credit27(st, id) {
        NewGenerationCreditsNothing(st, cards, id);
      }
    }
  }

  lemma NewGenerationCreditsNothing(st: Stream, cards: nat, id: nat)
    requires StreamShape(st) && st.supply < cards && 0 < id
    ensures Credit27(NextGeneration(st, cards), id) == Credit27(st, id)
  {
    CoveredIffWithinSupply(st, id);
    var gs := st.generations;
    var low := FirstCovering(gs, id);
    FirstCoveringIs(gs + [Generation(cards, st.counter)], id, if low < |gs| || id <= cards then low else |gs| + 1);
  }

  /** One credit raises every existing card by the same whole quotient, whenever it was minted. */
  lemma DistributeRaisesEveryCard(st: Stream, amount: nat, rolled27: nat, cards: nat, protocolCards: nat, q: nat)
    requires StreamShape(st) && st.supply == cards && 0 < cards && protocolCards <= cards
    requires q == (amount * PRECISION + st.rem + rolled27) / cards
    ensures var t := Distribute27(st, amount, rolled27, cards, protocolCards);
            && StreamShape(t) && t.supply == cards
            && forall id: nat :: 0 < id ==> Credit27(t, id) == Credit27(st, id) + (if id <= cards then q else 0)
  {
    var t := Distribute27(st, amount, rolled27, cards, protocolCards);
    DivBounds(amount * PRECISION + st.rem + rolled27, cards);
    forall id: nat | 0 < id ensures Credit27(t, id) == Credit27(st, id) + (if id <= cards then q else 0) {
      CoveredIffWithinSupply(st, id);
    }
  }

  // ---- One book, one credit ----

  /** The left-over units that join a credit: all of them on a new day, the running remainder for the same cards. */
  function Joining27(b: Book, epoch: nat, cards: nat): nat {
    if b.latest != Epoch(epoch) then Undivided27(b)
    else if StreamAt(b, epoch).supply == cards then StreamAt(b, epoch).rem
    else 0
  }

  ghost predicate MayCredit(b: Book, epoch: nat, cards: nat, protocolCards: nat) {
    BookShape(b, cards) && (b.latest.Epoch? ==> b.latest.day <= epoch) && 0 < cards && protocolCards <= cards
  }

  /** `t` is stream `st` after every one of the `fee.cards` cards got `q` more of credit27. */
  ghost predicate Raised(st: Stream, t: Stream, fee: Fee, q: nat) {
    && StreamShape(t) && t.supply == fee.cards
    && (forall id: nat :: 0 < id ==> Credit27(t, id) == Credit27(st, id) + (if id <= fee.cards then q else 0))
    && t == st.(counter := t.counter, rem := t.rem, supply := t.supply, totalCredit27 := t.totalCredit27,
                received := t.received, generations := t.generations, delegatedCredit27 := t.delegatedCredit27)
  }

  /** The stream's totals, when `j` left-over units join the fee and `q` a card comes out. */
  ghost predicate Totalled(st: Stream, t: Stream, fee: Fee, protocolCards: nat, j: nat, q: nat) {
    && protocolCards <= fee.cards
    && t.totalCredit27 == st.totalCredit27 + q * (fee.cards - protocolCards)
    && t.delegatedCredit27 == st.delegatedCredit27 + q * protocolCards
    && t.received == st.received + fee.amount
    && t.rem < fee.cards && fee.amount * PRECISION + j == q * fee.cards + t.rem
  }

  /** A credit writes the day's stream and clears the last remainder; what does not join (`j` does) waits. */
  ghost predicate Logged(b: Book, b': Book, fee: Fee, j: nat) {
    && b'.base == b.base && b'.due == b.due && b'.log == b.log + [fee] && b'.latest == Epoch(fee.epoch)
    && b'.streams.Keys == b.streams.Keys + {fee.epoch}
    && (forall e <- b.streams :: e != fee.epoch ==> b'.streams[e] == b.streams[e].(rem := 0))
    && (forall e <- b'.nextEpochRemainder :: e == fee.epoch + 1)
    && j <= Undivided27(b) && Amount(b'.nextEpochRemainder, fee.epoch + 1) == Undivided27(b) - j
  }

  /** The roll-over leaves the day's stream alone, and what it collects is what joins the division. */
  lemma RollEffect(b: Book, epoch: nat, cards: nat)
    requires BookShape(b, cards) && (b.latest.Epoch? ==> b.latest.day <= epoch)
    ensures var (rolled, rolled27) := Roll(b, epoch);
            && rolled.base == b.base && rolled.due == b.due && rolled.log == b.log
            && rolled.streams.Keys == b.streams.Keys
            && StreamAt(rolled, epoch) == StreamAt(b, epoch)
            && (forall e <- b.streams :: e != epoch ==> rolled.streams[e] == b.streams[e].(rem := 0))
            && NextGeneration(StreamAt(b, epoch), cards).rem + rolled27 == Joining27(b, epoch, cards)
  {
  }

  /** What did not join the division waits for the next day: nothing left over is dropped. */
  lemma WaitingAfterCredit(b: Book, epoch: nat, cards: nat)
    requires BookShape(b, cards) && (b.latest.Epoch? ==> b.latest.day <= epoch)
    ensures var next := Regenerate(Roll(b, epoch).0, epoch, cards).nextEpochRemainder;
            && (forall e <- next :: e == epoch + 1)
            && Amount(next, epoch + 1) == Undivided27(b) - Joining27(b, epoch, cards)
  {
  }

  lemma DividedStream(st: Stream, fee: Fee, rolled27: nat, protocolCards: nat, q: nat)
    requires StreamShape(st) && st.supply <= fee.cards && 0 < fee.cards && protocolCards <= fee.cards
    requires q == (fee.amount * PRECISION + NextGeneration(st, fee.cards).rem + rolled27) / fee.cards
    ensures var opened' := NextGeneration(st, fee.cards);
            var t := Distribute27(opened', fee.amount, rolled27, fee.cards, protocolCards);
            Raised(st, t, fee, q) && Totalled(st, t, fee, protocolCards, opened'.rem + rolled27, q)
  {
    var opened' := NextGeneration(st, fee.cards);
    NextGenerationKeeps(st, fee.cards);
    DistributeRaisesEveryCard(opened', fee.amount, rolled27, fee.cards, protocolCards, q);
    var numerator := fee.amount * PRECISION + opened'.rem + rolled27;
    DivisionOf(numerator, fee.cards, q, numerator % fee.cards);
  }

  lemma DivisionOf(n: nat, d: nat, q: nat, r: nat)
    requires 0 < d
    ensures (n == q * d + r && r < d) <==> (q == n / d && r == n % d)
  {
    assert n == d * (n / d) + n % d;
    if n == q * d + r && r < d {
      Distribute(q, n / d, d);
      if q < n / d { MulLe(q + 1, n / d, d); Distribute(q, 1, d); }
      if n / d < q { MulLe(n / d + 1, q, d); Distribute(n / d, 1, d); }
    }
  }

  /** What `_credit` does; everything below rests on this and no longer on its text. */
  lemma CreditEffect(b: Book, fee: Fee, protocolCards: nat) returns (q: nat)
    requires MayCredit(b, fee.epoch, fee.cards, protocolCards)
    ensures var b' := Credit(b, fee.epoch, fee.cards, protocolCards, fee.amount);
            var j := Joining27(b, fee.epoch, fee.cards);
            && Logged(b, b', fee, j)
            && Raised(StreamAt(b, fee.epoch), b'.streams[fee.epoch], fee, q)
            && Totalled(StreamAt(b, fee.epoch), b'.streams[fee.epoch], fee, protocolCards, j, q)
  {
    hide Credit, Distribute27, Credit27, Undivided27, Joining27, Raised, Totalled, Logged, StreamShape, Amount;
    var st, n := StreamAt(b, fee.epoch), fee.cards;
    var rolled27 := Roll(b, fee.epoch).1;
    var numerator := fee.amount * PRECISION + NextGeneration(st, n).rem + rolled27;
    DivBounds(numerator, n);
    q := numerator / n;
    DividedStream(st, fee, rolled27, protocolCards, q);
    CreditWrites(b, fee, protocolCards);
    RollEffect(b, fee.epoch, n);
    WaitingAfterCredit(b, fee.epoch, n);
    RecordEffect(b, Roll(b, fee.epoch).0, fee,
                 Distribute27(NextGeneration(st, n), fee.amount, rolled27, n, protocolCards),
                  Joining27(b, fee.epoch, n));
  }

  lemma CreditWrites(b: Book, fee: Fee, protocolCards: nat)
    requires MayCredit(b, fee.epoch, fee.cards, protocolCards)
    ensures var opened', rolled27 := NextGeneration(StreamAt(b, fee.epoch), fee.cards), Roll(b, fee.epoch).1;
            var t := Distribute27(opened', fee.amount, rolled27, fee.cards, protocolCards);
            var ready := Regenerate(Roll(b, fee.epoch).0, fee.epoch, fee.cards);
            && Credit(b, fee.epoch, fee.cards, protocolCards, fee.amount) == Record(ready, fee, t)
            && opened'.rem + rolled27 == Joining27(b, fee.epoch, fee.cards)
  {
    RollEffect(b, fee.epoch, fee.cards);
  }

  /** Whatever stream is recorded, the rest of the book changes as described. */
  lemma RecordEffect(b: Book, rolled: Book, fee: Fee, t: Stream, j: nat)
    requires rolled.base == b.base && rolled.due == b.due && rolled.log == b.log
    requires rolled.streams.Keys == b.streams.Keys
    requires forall e <- b.streams :: e != fee.epoch ==> rolled.streams[e] == b.streams[e].(rem := 0)
    requires var next := Regenerate(rolled, fee.epoch, fee.cards).nextEpochRemainder;
             && (forall e <- next :: e == fee.epoch + 1)
             && j <= Undivided27(b) && Amount(next, fee.epoch + 1) == Undivided27(b) - j
    ensures var b' := Record(Regenerate(rolled, fee.epoch, fee.cards), fee, t);
            Logged(b, b', fee, j) && b'.streams[fee.epoch] == t
  {
  }

  lemma CreditKeepsShape(b: Book, b': Book, fee: Fee, j: nat, q: nat)
    requires MayCredit(b, fee.epoch, fee.cards, 0) && Logged(b, b', fee, j)
    requires Raised(StreamAt(b, fee.epoch), b'.streams[fee.epoch], fee, q)
    ensures BookShape(b', fee.cards)
  {
    hide Credit27, Undivided27, Amount;
    forall e <- b'.streams
      ensures StreamShape(b'.streams[e]) && 0 < b'.streams[e].supply <= fee.cards
    {
      if e != fee.epoch {
        RemainderIsNotShape(b.streams[e], 0);
      }
    }
  }

  lemma RemainderIsNotShape(st: Stream, rem: nat)
    requires StreamShape(st)
    ensures StreamShape(st.(rem := rem))
  {
  }

  // ---- Conservation ----

  lemma {:induction false} SumIgnoresRemainders(m: map<nat, Stream>, m': map<nat, Stream>, f: Stream -> int)
    requires m.Keys == m'.Keys && forall e <- m :: f(m'[e]) == f(m[e])
    ensures Sum(m', f) == Sum(m, f)
    decreases |m|
  {
    if m != map[] {
      var e :| e in m && Sum(m, f) == f(m[e]) + Sum(m - {e}, f);
      SumSplit(m', e, f);
      SumIgnoresRemainders(m - {e}, m' - {e}, f);
    } else {
      assert m' == map[];
    }
  }

  /** A sum over streams that does not look at remainders changes by what the credited stream's entry changes. */
  lemma SumAfterCredit(b: Book, b': Book, epoch: nat, f: Stream -> int)
    requires epoch in b'.streams && b'.streams.Keys == b.streams.Keys + {epoch}
    requires forall e <- b.streams :: e != epoch ==> b'.streams[e] == b.streams[e].(rem := 0)
    requires f(FRESH) == 0 && forall st: Stream, rem: nat :: f(st.(rem := rem)) == f(st)
    ensures Sum(b'.streams, f) == Sum(b.streams, f) + f(b'.streams[epoch]) - f(StreamAt(b, epoch))
  {
    SumUpdate(b.streams, epoch, b'.streams[epoch], f);
    var m := b.streams[epoch := b'.streams[epoch]];
    forall e <- m ensures f(b'.streams[e]) == f(m[e]) {
      if e != epoch {
        assert b'.streams[e] == b.streams[e].(rem := 0);
      }
    }
    SumIgnoresRemainders(m, b'.streams, f);
  }

  /** No remainder is ever lost: credits plus what is left over stay equal to the scaled fees received. */
  lemma CreditConserves(b: Book, b': Book, fee: Fee, protocolCards: nat, j: nat, q: nat)
    requires Logged(b, b', fee, j) && Conserves(b)
    requires Totalled(StreamAt(b, fee.epoch), b'.streams[fee.epoch], fee, protocolCards, j, q)
    ensures Conserves(b')
  {
    SumAfterCredit(b, b', fee.epoch, Received());
    SumAfterCredit(b, b', fee.epoch, Credited27());
    var st, t := StreamAt(b, fee.epoch), b'.streams[fee.epoch];
    CreditedGrows(st, t, fee, protocolCards, j, q);
    UndividedAfter(b, b', fee, j);
  }

  lemma CreditedGrows(st: Stream, t: Stream, fee: Fee, protocolCards: nat, j: nat, q: nat)
    requires Totalled(st, t, fee, protocolCards, j, q)
    ensures Credited27()(t) == Credited27()(st) + q * fee.cards && Received()(t) == Received()(st) + fee.amount
  {
    Distribute(fee.cards - protocolCards, protocolCards, q);
  }

  lemma UndividedAfter(b: Book, b': Book, fee: Fee, j: nat)
    requires Logged(b, b', fee, j)
    ensures Undivided27(b') == b'.streams[fee.epoch].rem + Undivided27(b) - j
  {
  }

  // ---- Agreement with the eager ledger ----

  lemma AwardShare(had: seq<nat>, cards: nat, q: nat, i: nat)
    requires |had| <= cards
    ensures |Award(had, cards, q)| == cards
    ensures i < cards ==> Award(had, cards, q)[i] == (if i < |had| then had[i] else 0) + q
  {
  }

  /** The two ledgers divide the same number and leave the same amounts over. */
  lemma EagerCarries(b: Book, fee: Fee, q: nat, rem: nat)
    requires Refines(b) && 0 < fee.cards && rem < fee.cards
    requires fee.amount * PRECISION + Joining27(b, fee.epoch, fee.cards) == q * fee.cards + rem
    ensures EagerCredit(EagerOf(b.log), fee) == EagerAfter(b, fee, q, rem)
  {
    var g, j := EagerOf(b.log), Joining27(b, fee.epoch, fee.cards);
    DivisionOf(fee.amount * PRECISION + j, fee.cards, q, rem);
    assert EagerCredit(g, fee).parked == Undivided27(b) - j;
  }

  function EagerAfter(b: Book, fee: Fee, q: nat, rem: nat): Eager
    requires Countable(b.log)
  {
    var g := EagerOf(b.log);
    var had := if fee.epoch in g.credits then g.credits[fee.epoch] else [];
    var waiting := Undivided27(b) - Joining27(b, fee.epoch, fee.cards);
    Eager(g.credits[fee.epoch := Award(had, fee.cards, q)], rem, if waiting < 0 then 0 else waiting,
          Epoch(fee.epoch), fee.cards)
  }

  lemma EagerShareAfter(b: Book, b': Book, fee: Fee, q: nat, rem: nat, e: nat, id: nat)
    requires MayCredit(b, fee.epoch, fee.cards, 0) && Refines(b) && 0 < id && e in b'.streams
    requires Logged(b, b', fee, Joining27(b, fee.epoch, fee.cards))
    requires Raised(StreamAt(b, fee.epoch), b'.streams[fee.epoch], fee, q)
    ensures Credit27(b'.streams[e], id) == EagerShare(EagerAfter(b, fee, q, rem), e, id)
    ensures |EagerAfter(b, fee, q, rem).credits[e]| == b'.streams[e].supply
  {
    if e == fee.epoch {
      EagerShareToday(b, b'.streams[e], fee, q, rem, id);
    } else {
      EagerShareOther(b, b', fee, q, rem, e, id);
    }
  }

  lemma EagerShareOther(b: Book, b': Book, fee: Fee, q: nat, rem: nat, e: nat, id: nat)
    requires Refines(b) && 0 < id && e in b.streams && e != fee.epoch && e in b'.streams
    requires b'.streams[e] == b.streams[e].(rem := 0)
    ensures Credit27(b'.streams[e], id) == EagerShare(EagerAfter(b, fee, q, rem), e, id)
    ensures |EagerAfter(b, fee, q, rem).credits[e]| == b'.streams[e].supply
  {
    assert Credit27(b.streams[e], id) == EagerShare(EagerOf(b.log), e, id);
  }

  lemma EagerShareToday(b: Book, t: Stream, fee: Fee, q: nat, rem: nat, id: nat)
    requires MayCredit(b, fee.epoch, fee.cards, 0) && Refines(b) && 0 < id
    requires Raised(StreamAt(b, fee.epoch), t, fee, q)
    ensures Credit27(t, id) == EagerShare(EagerAfter(b, fee, q, rem), fee.epoch, id)
    ensures |EagerAfter(b, fee, q, rem).credits[fee.epoch]| == t.supply
  {
    hide Credit27, EagerOf, Undivided27, Joining27, StreamShape, Award;
    var g := EagerOf(b.log);
    var e, st := fee.epoch, StreamAt(b, fee.epoch);
    CoveredIffWithinSupply(st, id);
    if e in b.streams {
      assert Credit27(st, id) == EagerShare(g, e, id);
    }
    AwardShare(if e in g.credits then g.credits[e] else [], fee.cards, q, id - 1);
  }

  lemma LeftOverAfter(b: Book, b': Book, fee: Fee, q: nat, rem: nat)
    requires Countable(b.log) && Logged(b, b', fee, Joining27(b, fee.epoch, fee.cards))
    requires Raised(StreamAt(b, fee.epoch), b'.streams[fee.epoch], fee, q) && rem == b'.streams[fee.epoch].rem
    ensures var g := EagerAfter(b, fee, q, rem);
            && g.latest == b'.latest == Epoch(fee.epoch)
            && Undivided27(b') == g.carry + g.parked
            && g.carry == StreamAt(b', fee.epoch).rem && g.supply == StreamAt(b', fee.epoch).supply
  {
    hide Credit27, EagerOf, Joining27, StreamShape, Undivided27;
    UndividedAfter(b, b', fee, Joining27(b, fee.epoch, fee.cards));
  }

  lemma AgreesAfter(b: Book, b': Book, fee: Fee, q: nat, rem: nat)
    requires MayCredit(b, fee.epoch, fee.cards, 0) && Refines(b)
    requires Logged(b, b', fee, Joining27(b, fee.epoch, fee.cards))
    requires Raised(StreamAt(b, fee.epoch), b'.streams[fee.epoch], fee, q) && rem == b'.streams[fee.epoch].rem
    ensures Agrees(b', EagerAfter(b, fee, q, rem))
  {
    hide Credit27, Undivided27, EagerOf, EagerShare, Joining27, Raised, MayCredit;
    LeftOverAfter(b, b', fee, q, rem);
    forall e, id: nat | e in b'.streams && 0 < id
      ensures Credit27(b'.streams[e], id) == EagerShare(EagerAfter(b, fee, q, rem), e, id)
    {
      EagerShareAfter(b, b', fee, q, rem, e, id);
    }
    forall e <- b'.streams ensures |EagerAfter(b, fee, q, rem).credits[e]| == b'.streams[e].supply {
      EagerShareAfter(b, b', fee, q, rem, e, 1);
    }
    assert EagerAfter(b, fee, q, rem).credits.Keys == EagerOf(b.log).credits.Keys + {fee.epoch};
  }

  /** Crediting the lazy index and crediting every card one by one lead to the same ledger. */
  lemma CreditRefines(b: Book, b': Book, fee: Fee, protocolCards: nat, q: nat)
    requires MayCredit(b, fee.epoch, fee.cards, protocolCards) && Refines(b)
    requires var j := Joining27(b, fee.epoch, fee.cards);
             && Logged(b, b', fee, j)
             && Raised(StreamAt(b, fee.epoch), b'.streams[fee.epoch], fee, q)
             && Totalled(StreamAt(b, fee.epoch), b'.streams[fee.epoch], fee, protocolCards, j, q)
    ensures Refines(b')
  {
    var rem := b'.streams[fee.epoch].rem;
    AgreesAfter(b, b', fee, q, rem);
    EagerCarries(b, fee, q, rem);
    assert b'.log[..|b'.log| - 1] == b.log;
    assert EagerOf(b'.log) == EagerAfter(b, fee, q, rem);
  }

  // ---- The two sides ----

  /** A stream's totals are the sums of what the individual cards can see. */
  ghost predicate Sides(st: Stream, vault: set<nat>, cards: nat) {
    && SideCredit27(st, vault, false, cards) == st.totalCredit27
    && SideCredit27(st, vault, true, cards) == st.delegatedCredit27
  }

  /** How many of cards 1..k are on one side. */
  function SideCount(vault: set<nat>, delegated: bool, k: nat): nat {
    if k == 0 then 0 else SideCount(vault, delegated, k - 1) + (if (k in vault) == delegated then 1 else 0)
  }

  lemma {:induction false} SideCountIsCardinality(vault: set<nat>, k: nat)
    requires forall id <- vault :: 1 <= id <= k
    ensures SideCount(vault, true, k) == |vault| && SideCount(vault, false, k) == k - |vault|
  {
    if k == 0 {
      assert vault == {};
    } else {
      SideCountIsCardinality(vault - {k}, k - 1);
      SideCountIgnores(vault, vault - {k}, true, k - 1);
      SideCountIgnores(vault, vault - {k}, false, k - 1);
    }
  }

  lemma {:induction false} SideCountIgnores(vault: set<nat>, vault': set<nat>, delegated: bool, k: nat)
    requires forall id :: 1 <= id <= k ==> (id in vault <==> id in vault')
    ensures SideCount(vault, delegated, k) == SideCount(vault', delegated, k)
  {
    if k != 0 {
      SideCountIgnores(vault, vault', delegated, k - 1);
    }
  }

  lemma {:induction false} SideAfterRaise(st: Stream, t: Stream, q: nat, vault: set<nat>, delegated: bool, k: nat)
    requires forall id: nat :: 0 < id <= k ==> Credit27(t, id) == Credit27(st, id) + q
    ensures SideCredit27(t, vault, delegated, k)
            == SideCredit27(st, vault, delegated, k) + q * SideCount(vault, delegated, k)
  {
    if k != 0 {
      SideAfterRaise(st, t, q, vault, delegated, k - 1);
      Distribute(SideCount(vault, delegated, k - 1), 1, q);
    }
  }

  /** Cards minted after a stream's last credit add nothing to it, and a card's side is fixed for good. */
  lemma {:induction false} SideIgnoresNewCards(st: Stream, vault: set<nat>, vault': set<nat>, delegated: bool,
                                               k: nat, n: nat)
    requires StreamShape(st) && st.supply <= n <= k
    requires forall id :: 1 <= id <= n ==> (id in vault <==> id in vault')
    ensures SideCredit27(st, vault', delegated, k) == SideCredit27(st, vault, delegated, n)
    decreases k
  {
    if n < k {
      CoveredIffWithinSupply(st, k);
      SideIgnoresNewCards(st, vault, vault', delegated, k - 1, n);
    } else {
      SideIgnoresVault(st, vault, vault', delegated, k);
    }
  }

  lemma {:induction false} SideIgnoresVault(st: Stream, vault: set<nat>, vault': set<nat>, delegated: bool, k: nat)
    requires forall id :: 1 <= id <= k ==> (id in vault <==> id in vault')
    ensures SideCredit27(st, vault, delegated, k) == SideCredit27(st, vault', delegated, k)
  {
    if k != 0 {
      SideIgnoresVault(st, vault, vault', delegated, k - 1);
    }
  }

  lemma FreshSides(vault: set<nat>, cards: nat)
    ensures Sides(FRESH, vault, cards)
  {
    SideIgnoresNewCards(FRESH, vault, vault, false, cards, 0);
    SideIgnoresNewCards(FRESH, vault, vault, true, cards, 0);
  }

  /** Ordinary cards share the stream's total and vault cards its delegated part, to the last unit. */
  lemma RaiseKeepsSides(st: Stream, t: Stream, fee: Fee, j: nat, q: nat, vault: set<nat>)
    requires Raised(st, t, fee, q) && Totalled(st, t, fee, |vault|, j, q) && Sides(st, vault, fee.cards)
    requires forall id <- vault :: 1 <= id <= fee.cards
    ensures Sides(t, vault, fee.cards)
  {
    SideCountIsCardinality(vault, fee.cards);
    SideAfterRaise(st, t, q, vault, false, fee.cards);
    SideAfterRaise(st, t, q, vault, true, fee.cards);
  }

  lemma CreditKeepsSides(b: Book, b': Book, fee: Fee, j: nat, q: nat, vault: set<nat>)
    requires Logged(b, b', fee, j) && Raised(StreamAt(b, fee.epoch), b'.streams[fee.epoch], fee, q)
    requires Totalled(StreamAt(b, fee.epoch), b'.streams[fee.epoch], fee, |vault|, j, q)
    requires forall id <- vault :: 1 <= id <= fee.cards
    requires forall e <- b.streams :: Sides(b.streams[e], vault, fee.cards)
    ensures forall e <- b'.streams :: Sides(b'.streams[e], vault, fee.cards)
  {
    FreshSides(vault, fee.cards);
    RaiseKeepsSides(StreamAt(b, fee.epoch), b'.streams[fee.epoch], fee, j, q, vault);
    forall e <- b'.streams | e != fee.epoch ensures Sides(b'.streams[e], vault, fee.cards) {
      SidesIgnoreRemainder(b.streams[e], vault, false, fee.cards);
      SidesIgnoreRemainder(b.streams[e], vault, true, fee.cards);
    }
  }

  lemma {:induction false} SidesIgnoreRemainder(st: Stream, vault: set<nat>, delegated: bool, k: nat)
    ensures SideCredit27(st.(rem := 0), vault, delegated, k) == SideCredit27(st, vault, delegated, k)
  {
    if k != 0 {
      SidesIgnoreRemainder(st, vault, delegated, k - 1);
    }
  }
}
