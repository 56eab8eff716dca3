/**
 The credit ledger of src/v3/DeskRewards.sol: one (source, asset) pair's daily streams. A fee is credited to every
 existing card by bumping one counter; a card's share is found by binary search over the stream's generations.
 Beside it stands the eager ledger it must agree with, which keeps a balance for every card.
 */
module DeskLedgerModel {
  import opened Balances
  import opened FloorMath
  import opened MapSums

  const PRECISION: nat := 1_000_000_000_000_000_000_000_000_000

  const NATIVE: Address := 0

  datatype Source = Royalty | Surcharge | Pool(id: nat)

  /** What `latestStream` is keyed by; the settlement kind is 0 exactly for the native asset. */
  datatype Base = Base(source: Source, asset: Address) {
    predicate IsRaw() {
      asset != NATIVE
    }
  }

  datatype Generation = Generation(upperId: nat, initialCounter: nat)

  /** One day's stream: the Stream struct and every other mapping the contract keys by the stream. */
  datatype Stream = Stream(
    counter: nat, rem: nat, supply: nat, totalCredit27: nat, received: nat, generations: seq<Generation>,
    delegatedCredit27: nat, delegatedFunded: nat,
    isSealed: bool, entryAsset: Address, delivered: nat,
    purchasedRaw: nat, purchasedAsset: Address, paidRaw: map<nat, nat>
  )

  const FRESH: Stream := Stream(0, 0, 0, 0, 0, [], 0, 0, false, NATIVE, 0, 0, NATIVE, map[])

  datatype Latest = Never | Epoch(day: nat)

  /** A credit as an observer records it: the day, the number of cards then, and the amount. */
  datatype Fee = Fee(epoch: nat, cards: nat, amount: nat)

  /** All streams of one base by day, what the ledger still owes for it, and the fees credited so far. */
  datatype Book = Book(
    base: Base, streams: map<nat, Stream>, nextEpochRemainder: map<nat, nat>, latest: Latest,
    due: nat, log: seq<Fee>
  )

  function NewBook(base: Base): Book {
    Book(base, map[], map[], Never, 0, [])
  }

  function StreamAt(b: Book, epoch: nat): Stream {
    if epoch in b.streams then b.streams[epoch] else FRESH
  }

  // ---- The lazy index ----

  /** The first generation reaching `id`, or the number of generations if none does. */
  function FirstCovering(gs: seq<Generation>, id: nat): (low: nat)
    ensures low <= |gs|
    ensures forall j :: 0 <= j < low ==> gs[j].upperId < id
    ensures low < |gs| ==> id <= gs[low].upperId
  {
    if gs == [] || id <= gs[0].upperId then 0 else 1 + FirstCovering(gs[1..], id)
  }

  /** credit27; negative where Solidity would revert. */
  function Credit27(st: Stream, id: nat): int {
    var low := FirstCovering(st.generations, id);
    if low == |st.generations| then 0 else st.counter - st.generations[low].initialCounter
  }

  /** The roll-over at the start of `_credit`: a new day collects what the last one could not divide. */
  function Roll(b: Book, epoch: nat): (Book, nat) {
    if b.latest.Epoch? && b.latest.day != epoch then
      var last := StreamAt(b, b.latest.day);
      var rolled27 := last.rem + Amount(b.nextEpochRemainder, b.latest.day + 1);
      (b.(streams := b.streams[b.latest.day := last.(rem := 0)],
          nextEpochRemainder := b.nextEpochRemainder - {b.latest.day + 1}), rolled27)
    else (b, 0)
  }

  /** A changed card count opens a generation. */
  function NextGeneration(st: Stream, cards: nat): Stream {
    if st.supply == cards then st
    else st.(rem := 0, supply := cards, generations := st.generations + [Generation(cards, st.counter)])
  }

  /** It also parks the remainder left over from the old count for the next day. */
  function Regenerate(b: Book, epoch: nat, cards: nat): Book {
    var st := StreamAt(b, epoch);
    b.(streams := b.streams[epoch := NextGeneration(st, cards)],
       nextEpochRemainder := if st.supply == cards || st.rem == 0 then b.nextEpochRemainder
       else b.nextEpochRemainder[epoch + 1 := Amount(b.nextEpochRemainder, epoch + 1) + st.rem])
  }

  /** Distributes `amount` and the rolled remainder over `cards` cards, `protocolCards` of them delegated. */
  function Distribute27(st: Stream, amount: nat, rolled27: nat, cards: nat, protocolCards: nat): Stream
    requires 0 < cards && protocolCards <= cards
  {
    var numerator := amount * PRECISION + st.rem + rolled27;
    var q := numerator / cards;
    st.(rem := numerator % cards, counter := st.counter + q,
        totalCredit27 := st.totalCredit27 + q * (cards - protocolCards), received := st.received + amount,
        delegatedCredit27 := st.delegatedCredit27 + q * protocolCards)
  }

  /** _credit of a non-zero amount, with at least one card. */
  function Credit(b: Book, epoch: nat, cards: nat, protocolCards: nat, amount: nat): Book
    requires 0 < cards && protocolCards <= cards
  {
    var (rolled, rolled27) := Roll(b, epoch);
    var ready := Regenerate(rolled, epoch, cards);
    Record(ready, Fee(epoch, cards, amount),
           Distribute27(StreamAt(ready, epoch), amount, rolled27, cards, protocolCards))
  }

  /** Writes the day's stream back and remembers it as the latest. */
  function Record(b: Book, fee: Fee, st: Stream): Book {
    b.(streams := b.streams[fee.epoch := st], latest := Epoch(fee.epoch), log := b.log + [fee])
  }

  // ---- The eager ledger ----

  /**
   A balance for every card and day, and two pots of what could not be divided: `carry` joins the next credit to
   the same cards, `parked` waits for the next day. `supply` is the number of cards last credited.
   */
  datatype Eager = Eager(credits: map<nat, seq<nat>>, carry: nat, parked: nat, latest: Latest, supply: nat)

  function Award(had: seq<nat>, cards: nat, q: nat): seq<nat> {
    seq(cards, i requires 0 <= i => (if i < |had| then had[i] else 0) + q)
  }

  /** Every one of the `cards` existing cards gets the same whole quotient. */
  function EagerCredit(g: Eager, fee: Fee): Eager
    requires 0 < fee.cards
  {
    var newDay := g.latest != Epoch(fee.epoch);
    var newCards := !newDay && g.supply != fee.cards;
    var carry := if newDay then g.carry + g.parked else if newCards then 0 else g.carry;
    var parked := if newDay then 0 else if newCards then g.parked + g.carry else g.parked;
    var total := fee.amount * PRECISION + carry;
    var had := if fee.epoch in g.credits then g.credits[fee.epoch] else [];
    Eager(g.credits[fee.epoch := Award(had, fee.cards, total / fee.cards)],
          total % fee.cards, parked, Epoch(fee.epoch), fee.cards)
  }

  predicate Countable(log: seq<Fee>) {
    forall fee <- log :: 0 < fee.cards
  }

  function EagerOf(log: seq<Fee>): Eager
    requires Countable(log)
  {
    if log == [] then Eager(map[], 0, 0, Never, 0)
    else EagerCredit(EagerOf(log[..|log| - 1]), log[|log| - 1])
  }

  function EagerShare(g: Eager, epoch: nat, id: nat): nat {
    if epoch in g.credits && 0 < id <= |g.credits[epoch]| then g.credits[epoch][id - 1] else 0
  }

  // ---- Totals ----

  function Received(): Stream -> int {
    (st: Stream) => st.received
  }

  function Credited27(): Stream -> int {
    (st: Stream) => st.totalCredit27 + st.delegatedCredit27
  }

  ghost function TotalReceived(b: Book): int {
    Sum(b.streams, Received())
  }

  ghost function TotalCredited27(b: Book): int {
    Sum(b.streams, Credited27())
  }

  /** What the latest stream has left over, plus what waits for the day after it. */
  function Undivided27(b: Book): nat {
    if b.latest.Never? then 0
    else StreamAt(b, b.latest.day).rem + Amount(b.nextEpochRemainder, b.latest.day + 1)
  }

  /** The credit27 of cards 1..k on one side: those in `vault` (`delegated`) or the others. */
  function SideCredit27(st: Stream, vault: set<nat>, delegated: bool, k: nat): int {
    if k == 0 then 0
    else SideCredit27(st, vault, delegated, k - 1) + (if (k in vault) == delegated then Credit27(st, k) else 0)
  }
}
