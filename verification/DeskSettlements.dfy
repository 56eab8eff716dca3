/** What a card, the vault and a round get out of a stream, to the unit, and what is left in it when all are paid. */
module DeskSettlements {
  import opened Balances
  import opened FloorMath
  import opened MapSums
  import opened Outcomes
  import opened DeskLedgerModel
  import opened DeskLedgerRuns
  import opened DeskPayouts
  import opened DeskRewardsModel
  import opened DeskRewardsRuns
  import opened DeskRewardsPromises
  import N = DeskNFTModel

  // ---- Cards ----

  /**
   A card has received of a raw stream the whole units of its credit, and of a native one the stock bought for it by
   its part of the ordinary credit, both rounded down.
   */
  ghost predicate PaidInFull(s: State, id: nat, key: Key) {
    PaidInFullOf(StreamOf(s, key), key.base.IsRaw(), id)
  }

  ghost predicate PaidInFullOf(st: Stream, isRaw: bool, id: nat) {
    var paid, credit := Amount(st.paidRaw, id), Credit27(st, id);
    && 0 <= credit
    && (if isRaw then IsFloor(paid, credit, PRECISION)
        else if st.totalCredit27 == 0 then paid == 0
        else IsFloor(paid, st.purchasedRaw * credit, st.totalCredit27))
  }

  /** Nothing is claimable exactly when the card is paid in full. */
  lemma NothingClaimable(st: Stream, isRaw: bool, id: nat)
    ensures Claimable(st, isRaw, id) == Success(0) <==> PaidInFullOf(st, isRaw, id)
  {
    var credit := Credit27(st, id);
    if 0 <= credit {
      if isRaw {
        DivBounds(credit, PRECISION);
        FloorIsUnique(Amount(st.paidRaw, id), Owed(st, isRaw, credit), credit, PRECISION);
      } else if st.totalCredit27 != 0 {
        FloorIsUnique(Amount(st.paidRaw, id), Owed(st, isRaw, credit), st.purchasedRaw * credit, st.totalCredit27);
      }
    }
  }

  lemma FloorIsUnique(p: int, q: int, n: int, d: int)
    requires 0 < d && IsFloor(q, n, d)
    ensures IsFloor(p, n, d) <==> p == q
  {
    if IsFloor(p, n, d) {
      Distribute(p, 1, d);
      Distribute(q, 1, d);
      CancelLt(p, q + 1, d);
      CancelLt(q, p + 1, d);
    }
  }

  /** A successful round of `pay` touches one entry of one stream. */
  lemma PayKeyEffect(s: State, id: nat, key: Key, other: Key)
    requires PayKey(s, id, key, true, true).Success?
    ensures Claimable(StreamOf(s, key), key.base.IsRaw(), id).Success?
    ensures var amount := Claimable(StreamOf(s, key), key.base.IsRaw(), id).value;
            StreamOf(PayKey(s, id, key, true, true).value, other)
            == if other == key && 0 < amount then PaidStream(StreamOf(s, key), id, amount) else StreamOf(s, other)
  {
    hide Claimable, Pull, MarkPaid, DeliverRaw, DeliverStock, StreamOf;
    var amount := Claimable(StreamOf(s, key), key.base.IsRaw(), id).value;
    if 0 < amount {
      var marked := MarkPaid(s, id, key, amount);
      MarkPaidWritesOneStream(s, id, key, amount, other);
      PullWritesNoStream(marked, key.base, other);
      DeliveryWritesNoStream(Pull(marked, key.base), key.base.asset, amount, other);
      DeliveryWritesNoStream(Pull(marked, key.base), StreamOf(s, key).purchasedAsset, amount, other);
    }
  }

  lemma MarkPaidWritesOneStream(s: State, id: nat, key: Key, amount: nat, other: Key)
    ensures StreamOf(MarkPaid(s, id, key, amount), other)
            == if other == key then PaidStream(StreamOf(s, key), id, amount) else StreamOf(s, other)
  {
  }

  lemma PullWritesNoStream(s: State, base: Base, other: Key)
    ensures StreamOf(Pull(s, base), other) == StreamOf(s, other)
  {
  }

  lemma DeliveryWritesNoStream(s: State, asset: Address, amount: nat, other: Key)
    ensures DeliverRaw(s, asset, amount).Success? ==>
              StreamOf(DeliverRaw(s, asset, amount).value, other) == StreamOf(s, other)
    ensures DeliverStock(s, asset, amount).Success? ==>
              StreamOf(DeliverStock(s, asset, amount).value, other) == StreamOf(s, other)
  {
  }

  lemma PayKeyPaysInFull(s: State, id: nat, key: Key)
    requires PayKey(s, id, key, true, true).Success?
    ensures PaidInFull(PayKey(s, id, key, true, true).value, id, key)
  {
    hide PayKey, Owed, PaidInFullOf;
    PayKeyEffect(s, id, key, key);
    var st := StreamOf(s, key);
    var amount := Claimable(st, key.base.IsRaw(), id).value;
    OwedIgnoresPayments(st, PaidStream(st, id, amount), key.base.IsRaw(), id);
    NothingClaimable(StreamOf(PayKey(s, id, key, true, true).value, key), key.base.IsRaw(), id);
  }

  lemma PaidInFullStays(s: State, id: nat, key: Key, other: Key)
    requires PayKey(s, id, key, true, true).Success? && PaidInFull(s, id, other)
    ensures PaidInFull(PayKey(s, id, key, true, true).value, id, other)
  {
    hide PayKey, PaidInFullOf, Claimable;
    PayKeyEffect(s, id, key, other);
    NothingClaimable(StreamOf(s, other), other.base.IsRaw(), id);
  }

  lemma {:induction false} PaidInFullStaysThroughout(s: State, id: nat, keys: seq<Key>, other: Key)
    requires PayKeys(s, id, keys, true, true).Success? && PaidInFull(s, id, other)
    ensures PaidInFull(PayKeys(s, id, keys, true, true).value, id, other)
    decreases |keys|
  {
    hide PayKey, PaidInFull;
    if keys != [] {
      PaidInFullStays(s, id, keys[0], other);
      PaidInFullStaysThroughout(PayKey(s, id, keys[0], true, true).value, id, keys[1..], other);
    }
  }

  lemma {:induction false} PayKeysPaysInFull(s: State, id: nat, keys: seq<Key>)
    requires PayKeys(s, id, keys, true, true).Success?
    ensures forall key <- keys :: PaidInFull(PayKeys(s, id, keys, true, true).value, id, key)
    decreases |keys|
  {
    hide PayKey, PaidInFull;
    if keys != [] {
      var paid := PayKey(s, id, keys[0], true, true).value;
      PayKeyPaysInFull(s, id, keys[0]);
      PaidInFullStaysThroughout(paid, id, keys[1..], keys[0]);
      PayKeysPaysInFull(paid, id, keys[1..]);
    }
  }

  /** Any ordinary card can be paid, and then it has received of every named stream exactly its share. */
  lemma OrdinaryCardsCanAlwaysClaim(s: State, id: nat, keys: seq<Key>)
    requires Reachable(s)
    ensures var r := Pay(s, id, keys, true, true);
            && (r.Success? <==> id in s.nft.owner && s.nft.owner[id] != s.nft.protocolVault && |keys| <= 20)
            && (r.Success? ==> forall key <- keys :: PaidInFull(r.value, id, key))
  {
    hide Inv, PayKeys, PaidInFull;
    ReachableKeepsInv(s);
    PayKeeps(s, id, keys, true, true);
    if Pay(s, id, keys, true, true).Success? {
      PayKeysPaysInFull(s, id, keys);
    } else if id in s.nft.owner && s.nft.owner[id] != s.nft.protocolVault && |keys| <= 20 {
      PayableCard(s, id);
      PayKeysKeeps(s, id, keys, true, true);
    }
  }

  /**
   An ineligible owner or a transfer that does not settle stops a payout exactly when there is something to pay; a
   payout that goes through anyway changes nothing.
   */
  lemma RefusedPayoutsPayNothing(s: State, id: nat, keys: seq<Key>, eligible: bool, settles: bool)
    requires Reachable(s) && !(eligible && settles)
    ensures var r := Pay(s, id, keys, eligible, settles);
            && (r.Success? <==>
                  id in s.nft.owner && s.nft.owner[id] != s.nft.protocolVault && |keys| <= 20
                  && forall key <- keys :: PaidInFull(s, id, key))
            && (r.Success? ==> r.value == s)
  {
    hide PaidInFull, Reachable, PayKeys;
    RefusedRounds(s, id, keys, eligible, settles);
  }

  lemma {:induction false} RefusedRounds(s: State, id: nat, keys: seq<Key>, eligible: bool, settles: bool)
    requires !(eligible && settles)
    ensures var r := PayKeys(s, id, keys, eligible, settles);
            && (r.Success? <==> forall key <- keys :: PaidInFull(s, id, key))
            && (r.Success? ==> r.value == s)
    decreases |keys|
  {
    hide PaidInFullOf, Claimable, StreamOf;
    if keys != [] {
      NothingClaimable(StreamOf(s, keys[0]), keys[0].base.IsRaw(), id);
      RefusedRounds(s, id, keys[1..], eligible, settles);
      assert forall key :: key in keys <==> key == keys[0] || key in keys[1..];
      if PaidInFull(s, id, keys[0]) {
        assert PayKey(s, id, keys[0], eligible, settles) == Success(s);
      } else {
        assert keys[0] in keys && PayKey(s, id, keys[0], eligible, settles).Failure?;
      }
    }
  }

  // ---- What is left ----

  /** If every ordinary card's payment is within one unit of its weighted credit, all together are within one each. */
  lemma {:induction false} PaymentsFillSide(m: map<nat, nat>, st: Stream, vault: set<nat>, k: nat, scale: nat,
                                            weight: nat)
    requires forall id: nat | 1 <= id <= k && id !in vault :: weight * Credit27(st, id) < scale * (Amount(m, id) + 1)
    requires forall id: nat | 1 <= id <= k && id in vault :: Amount(m, id) == 0
    ensures weight * SideCredit27(st, vault, false, k) + SideCount(vault, false, k)
            <= scale * (PaidTo(m, k) + SideCount(vault, false, k))
  {
    if k != 0 {
      PaymentsFillSide(m, st, vault, k - 1, scale, weight);
      if k !in vault {
        assert weight * Credit27(st, k) < scale * (Amount(m, k) + 1);
        Distribute(SideCredit27(st, vault, false, k - 1), Credit27(st, k), weight);
        Distribute(PaidTo(m, k - 1) + SideCount(vault, false, k - 1), Amount(m, k) + 1, scale);
      }
    }
  }

  /**
   Once every ordinary card of a stream is paid in full, less than one unit per such card is left: of the stock that
   was bought, or of the whole units of the cards' credit.
   */
  lemma LessThanOneUnitPerCardIsLeft(s: State, key: Key)
    requires Reachable(s) && 0 < StreamOf(s, key).totalCredit27
    requires forall id <- s.nft.owner :: s.nft.owner[id] != s.nft.protocolVault ==> PaidInFull(s, id, key)
    ensures var st, ordinary := StreamOf(s, key), N.TotalSupply(s.nft) - s.nft.protocolMinted;
            if key.base.IsRaw() then st.totalCredit27 < PRECISION * (PaidSum(st) + ordinary)
            else PaidSum(st) <= st.purchasedRaw < PaidSum(st) + ordinary
  {
    hide Reachable, PaidInFullOf, Inv, PaidSum, Sides, SideCredit27, StreamOf;
    ReachableKeepsInv(s);
    CardsOfStream(s, key);
    StreamsNeverOverpay(s, key);
    forall id | 1 <= id <= N.TotalSupply(s.nft) && id !in N.VaultIds(s.nft)
      ensures PaidInFullOf(StreamOf(s, key), key.base.IsRaw(), id)
    {
      assert s.nft.owner[id] != s.nft.protocolVault && PaidInFull(s, id, key);
    }
    if key.base.IsRaw() {
      LeftInRawStream(StreamOf(s, key), N.VaultIds(s.nft), N.TotalSupply(s.nft));
    } else {
      LeftInNativeStream(StreamOf(s, key), N.VaultIds(s.nft), N.TotalSupply(s.nft));
    }
  }

  lemma CardsOfStream(s: State, key: Key)
    requires Inv(s)
    ensures var vault, cards := N.VaultIds(s.nft), N.TotalSupply(s.nft);
            && |vault| == s.nft.protocolMinted <= cards
            && (forall id <- vault :: 1 <= id <= cards)
            && (forall id :: id in s.nft.owner <==> 1 <= id <= cards)
            && Sides(StreamOf(s, key), vault, cards)
            && (forall id <- StreamOf(s, key).paidRaw :: 1 <= id <= cards && id !in vault)
  {
    hide CustodyInv, StockInv, HeldInv, Ledgered, StreamShape;
    BookOf(s, key.base);
    VaultWithinCards(s.nft);
    FreshSides(N.VaultIds(s.nft), N.TotalSupply(s.nft));
  }

  /** The facts about a stream's cards that the two cases below share. */
  ghost predicate AllPaid(st: Stream, isRaw: bool, vault: set<nat>, cards: nat) {
    && 0 < st.totalCredit27 && Sides(st, vault, cards)
    && (forall id <- vault :: 1 <= id <= cards)
    && (forall id <- st.paidRaw :: 1 <= id <= cards && id !in vault)
    && (forall id: nat | 1 <= id <= cards && id !in vault :: PaidInFullOf(st, isRaw, id))
  }

  lemma LeftInRawStream(st: Stream, vault: set<nat>, cards: nat)
    requires AllPaid(st, true, vault, cards)
    ensures st.totalCredit27 < PRECISION * (PaidSum(st) + cards - |vault|)
  {
    hide SideCredit27, SideCount, PaidInFullOf;
    SideCountIsCardinality(vault, cards);
    NoCardNoCredit(st, vault, cards);
    PaidToEveryone(st.paidRaw, cards);
    forall id: nat | 1 <= id <= cards && id !in vault
      ensures 1 * Credit27(st, id) < PRECISION * (Amount(st.paidRaw, id) + 1)
    {
      LessThanOneUnitShort(st, true, id);
    }
    PaymentsFillSide(st.paidRaw, st, vault, cards, PRECISION, 1);
  }

  lemma LeftInNativeStream(st: Stream, vault: set<nat>, cards: nat)
    requires AllPaid(st, false, vault, cards)
    ensures st.purchasedRaw < PaidSum(st) + cards - |vault|
  {
    hide SideCredit27, SideCount, PaidInFullOf;
    SideCountIsCardinality(vault, cards);
    NoCardNoCredit(st, vault, cards);
    PaidToEveryone(st.paidRaw, cards);
    forall id: nat | 1 <= id <= cards && id !in vault
      ensures st.purchasedRaw * Credit27(st, id) < st.totalCredit27 * (Amount(st.paidRaw, id) + 1)
    {
      LessThanOneUnitShort(st, false, id);
    }
    PaymentsFillSide(st.paidRaw, st, vault, cards, st.totalCredit27, st.purchasedRaw);
    BelowByOne(st.purchasedRaw, PaidSum(st), cards - |vault|, st.totalCredit27);
  }

  lemma BelowByOne(purchased: nat, paid: int, ordinary: nat, total: nat)
    requires 0 < total && 0 < ordinary && purchased * total + ordinary <= total * (paid + ordinary)
    ensures purchased < paid + ordinary
  {
    CancelLt(purchased, paid + ordinary, total);
  }

  lemma LessThanOneUnitShort(st: Stream, isRaw: bool, id: nat)
    requires 0 < st.totalCredit27 && PaidInFullOf(st, isRaw, id)
    ensures var paid, credit := Amount(st.paidRaw, id), Credit27(st, id);
            if isRaw then 1 * credit < PRECISION * (paid + 1)
            else st.purchasedRaw * credit < st.totalCredit27 * (paid + 1)
  {
    Distribute(Amount(st.paidRaw, id), 1, st.totalCredit27);
  }

  lemma {:induction false} NoCardNoCredit(st: Stream, vault: set<nat>, k: nat)
    ensures SideCount(vault, false, k) == 0 ==> SideCredit27(st, vault, false, k) == 0
  {
    if k != 0 {
      NoCardNoCredit(st, vault, k - 1);
    }
  }
}
