/**
 src/v3/DeskNFT.sol, as far as the rewards rest on it: who may mint, that token ids run from 1 without gaps, and
 that a protocol card enters the vault only by being minted there and never leaves it.
 */
module DeskNFTModel {
  import opened Balances
  import opened FloorMath
  import opened Outcomes
  import opened MapSums

  const NOBODY: Address := 0
  const MAX_SUPPLY: nat := 5000
  const MAX_PER_MINT: nat := 20
  const PROTOCOL_CAP: nat := 1000

  datatype State = State(
    nextTokenId: nat, owner: map<nat, Address>, mintedTo: map<Address, nat>, mintCap: nat,
    protocolVault: Address, protocolMinted: nat
  )

  datatype Error =
    | MintCapacity | AddressMintCap | SurchargePayment | BurnFailed | ProtocolMintOnly | ProtocolLocked | ProtocolCap
    | NotGovernance | NotOwner | NotAuthorized | Ineligible | ZeroAddress | AlreadyMinted | NonexistentToken
    | VaultConfiguration | SponsorConsent | CapTooHigh

  /** What a payer brings to a mint: the native fee and price, whether the SOLON burn goes through, eligibility. */
  datatype Payment = Payment(fee: nat, price: nat, burns: bool, eligible: bool)

  function Deployed(): State {
    State(1, map[], map[], 50, NOBODY, 0)
  }

  function TotalSupply(s: State): nat {
    if s.nextTokenId == 0 then 0 else s.nextTokenId - 1
  }

  /** The cards the protocol vault holds. */
  function VaultIds(s: State): set<nat> {
    set id <- s.owner | s.owner[id] == s.protocolVault
  }

  function Minted(s: State, to: Address): nat {
    if to in s.mintedTo then s.mintedTo[to] else 0
  }

  /** _update, for a mint (`id` has no owner) or a transfer. */
  function Update(s: State, to: Address, id: nat, eligible: bool): Result<State, Error> {
    var from := if id in s.owner then s.owner[id] else NOBODY;
    var _ :- Require(from == NOBODY || from != s.protocolVault, ProtocolLocked);
    var _ :- Require(to != s.protocolVault || from == NOBODY, ProtocolMintOnly);
    var _ :- Require(eligible, Ineligible);
    Success(s.(owner := s.owner[id := to]))
  }

  /** _safeMint of one id. */
  function MintId(s: State, to: Address, id: nat, eligible: bool): Result<State, Error> {
    var _ :- Require(to != NOBODY, ZeroAddress);
    var _ :- Require(id !in s.owner, AlreadyMinted);
    Update(s, to, id, eligible)
  }

  function MintIds(s: State, to: Address, first: nat, count: nat, eligible: bool): Result<State, Error>
    decreases count
  {
    if count == 0 then Success(s)
    else
      var one :- MintId(s, to, first, eligible);
      MintIds(one, to, first + 1, count - 1, eligible)
  }

  /** _mintPaid, up to the surcharge it hands to the rewards. */
  function MintPaid(s: State, count: nat, to: Address, payment: Payment): Result<State, Error> {
    var _ :- Require(0 < count <= MAX_PER_MINT && TotalSupply(s) + count <= MAX_SUPPLY, MintCapacity);
    var minted := Minted(s, to) + count;
    var _ :- Require(to == s.protocolVault || minted <= s.mintCap, AddressMintCap);
    var s1 := if to == s.protocolVault then s else s.(mintedTo := s.mintedTo[to := minted]);
    var _ :- Require(payment.fee == payment.price * count, SurchargePayment);
    var _ :- Require(payment.burns, BurnFailed);
    MintIds(s1.(nextTokenId := s1.nextTokenId + count), to, s1.nextTokenId, count, payment.eligible)
  }

  /** The part of a surcharge the rewards receive: all but a tenth. */
  function Surcharge(fee: nat): (part: nat)
    ensures 9 * fee <= 10 * part < 9 * fee + 10
  {
    DivBounds(fee, 10);
    fee - fee / 10
  }

  function Mint(s: State, count: nat, to: Address, payment: Payment): Result<State, Error> {
    var _ :- Require(to != s.protocolVault, ProtocolMintOnly);
    MintPaid(s, count, to, payment)
  }

  /** mintProtocol; no transaction comes from address zero, so an unset vault cannot mint. */
  function MintProtocol(s: State, caller: Address, count: nat, payment: Payment): Result<State, Error> {
    var _ :- Require(caller != NOBODY && caller == s.protocolVault && s.protocolMinted + count <= PROTOCOL_CAP,
                     ProtocolCap);
    MintPaid(s.(protocolMinted := s.protocolMinted + count), count, s.protocolVault, payment)
  }

  function GrantSponsored(s: State, isGovernance: bool, recipient: Address, consented: bool, payment: Payment)
    : Result<State, Error>
  {
    var _ :- Require(isGovernance && recipient != s.protocolVault, NotGovernance);
    var _ :- Require(consented, SponsorConsent);
    MintPaid(s, 1, recipient, payment)
  }

  /** transferFrom, safeTransferFrom and the transfer leg of a sale. */
  function Transfer(s: State, from: Address, to: Address, id: nat, authorized: bool, eligible: bool)
    : Result<State, Error>
  {
    var _ :- Require(to != NOBODY, ZeroAddress);
    var _ :- Require(id in s.owner, NonexistentToken);
    var _ :- Require(authorized, NotAuthorized);
    var moved :- Update(s, to, id, eligible);
    var _ :- Require(s.owner[id] == from, NotOwner);
    Success(moved)
  }

  function ConfigureProtocolVault(s: State, isGovernance: bool, vault: Address): Result<State, Error> {
    var _ :- Require(isGovernance && s.protocolVault == NOBODY && vault != NOBODY
                     && (forall id <- s.owner :: s.owner[id] != vault), VaultConfiguration);
    Success(s.(protocolVault := vault))
  }

  function SetMintCap(s: State, isGovernance: bool, cap: nat): Result<State, Error> {
    var _ :- Require(isGovernance, NotGovernance);
    var _ :- Require(cap <= MAX_SUPPLY, CapTooHigh);
    Success(s.(mintCap := cap))
  }

  // ---- What every transaction keeps ----

  function Itself(): nat -> int {
    (n: nat) => n
  }

  ghost predicate Inv(s: State) {
    && 1 <= s.nextTokenId && TotalSupply(s) <= MAX_SUPPLY
    && (forall id :: id in s.owner <==> 1 <= id < s.nextTokenId)
    && (forall id <- s.owner :: s.owner[id] != NOBODY)
    && |VaultIds(s)| == s.protocolMinted <= PROTOCOL_CAP
    && Sum(s.mintedTo, Itself()) + s.protocolMinted == TotalSupply(s)
  }

  /** Cards are only added, and each stays on its side: a vault card keeps its owner, no other card joins it. */
  ghost predicate Grows(s: State, s': State) {
    && s.nextTokenId <= s'.nextTokenId
    && (forall id <- s.owner :: id in s'.owner)
    && (forall id <- s.owner :: id in VaultIds(s) <==> id in VaultIds(s'))
    && (forall id <- VaultIds(s) :: s'.owner[id] == s.owner[id])
  }

  lemma DeployedInv()
    ensures Inv(Deployed())
  {
    assert VaultIds(Deployed()) == {};
  }

  lemma {:induction false} MintIdsEffect(s: State, to: Address, first: nat, count: nat, eligible: bool)
    requires forall id <- s.owner :: id < first
    ensures var r := MintIds(s, to, first, count, eligible);
            r.Success? ==>
              && r.value == s.(owner := r.value.owner)
              && (forall id :: id in r.value.owner <==> id in s.owner || first <= id < first + count)
              && (forall id <- s.owner :: r.value.owner[id] == s.owner[id])
              && (forall id :: first <= id < first + count ==> r.value.owner[id] == to != NOBODY)
              && |VaultIds(r.value)| == |VaultIds(s)| + (if to == s.protocolVault then count else 0)
    decreases count
  {
    hide VaultIds;
    if count != 0 && MintId(s, to, first, eligible).Success? {
      var one := MintId(s, to, first, eligible).value;
      MintIdsEffect(one, to, first + 1, count - 1, eligible);
      VaultGains(s, to, first);
      var r := MintIds(s, to, first, count, eligible);
      if r.Success? {
        assert r.value.owner[first] == one.owner[first] == to;
      }
    }
  }

  lemma VaultGains(s: State, to: Address, id: nat)
    requires id !in s.owner
    ensures |VaultIds(s.(owner := s.owner[id := to]))| == |VaultIds(s)| + (if to == s.protocolVault then 1 else 0)
  {
    var one := s.(owner := s.owner[id := to]);
    if to == s.protocolVault {
      assert VaultIds(one) == VaultIds(s) + {id};
    } else {
      assert VaultIds(one) == VaultIds(s);
    }
  }

  lemma MintBooks(s: State, count: nat, to: Address)
    requires Inv(s) && to != s.protocolVault
    ensures Sum(s.mintedTo[to := Minted(s, to) + count], Itself()) + s.protocolMinted == TotalSupply(s) + count
  {
    SumUpdate<Address, nat>(s.mintedTo, to, Minted(s, to) + count, Itself());
  }

  /** What a successful mint does: `count` new ids from the counter on, all to one owner. */
  ghost predicate MintedBy(s: State, s': State, count: nat, to: Address) {
    && 0 < count && TotalSupply(s) + count <= MAX_SUPPLY
    && s' == s.(nextTokenId := s.nextTokenId + count, owner := s'.owner,
                mintedTo := if to == s.protocolVault then s.mintedTo else s.mintedTo[to := Minted(s, to) + count])
    && (forall id :: id in s'.owner <==> id in s.owner || s.nextTokenId <= id < s.nextTokenId + count)
    && (forall id <- s.owner :: s'.owner[id] == s.owner[id])
    && (forall id :: s.nextTokenId <= id < s.nextTokenId + count ==> s'.owner[id] == to != NOBODY)
    && |VaultIds(s')| == |VaultIds(s)| + (if to == s.protocolVault then count else 0)
  }

  lemma MintPaidOutcome(s: State, count: nat, to: Address, payment: Payment)
    requires forall id <- s.owner :: id < s.nextTokenId
    ensures var r := MintPaid(s, count, to, payment);
            r.Success? ==>
              MintedBy(s, r.value, count, to) && (to != s.protocolVault ==> Minted(s, to) + count <= s.mintCap)
  {
    var r := MintPaid(s, count, to, payment);
    if r.Success? {
      var s1 := if to == s.protocolVault then s else s.(mintedTo := s.mintedTo[to := Minted(s, to) + count]);
      var s2 := s1.(nextTokenId := s1.nextTokenId + count);
      assert VaultIds(s2) == VaultIds(s);
      MintIdsEffect(s2, to, s.nextTokenId, count, payment.eligible);
    }
  }

  /** A mint to anyone, and a protocol mint once `protocolMinted` was raised for it. */
  lemma MintKeepsInv(before: State, s: State, s': State, count: nat, to: Address)
    requires Inv(before) && s == before.(protocolMinted := s.protocolMinted)
    requires s.protocolMinted == before.protocolMinted + (if to == s.protocolVault then count else 0) <= PROTOCOL_CAP
    requires MintedBy(s, s', count, to)
    ensures Inv(s') && Grows(before, s')
  {
    assert VaultIds(s) == VaultIds(before);
    if to != s.protocolVault {
      MintBooks(before, count, to);
    }
  }

  /** A paid mint keeps the books, and no address is minted more than the cap. */
  lemma MintKeeps(s: State, count: nat, to: Address, payment: Payment)
    requires Inv(s)
    ensures var r := Mint(s, count, to, payment);
            r.Success? ==> Inv(r.value) && Grows(s, r.value) && Minted(r.value, to) <= s.mintCap
  {
    if to != s.protocolVault {
      MintPaidOutcome(s, count, to, payment);
      var r := MintPaid(s, count, to, payment);
      if r.Success? {
        MintKeepsInv(s, s, r.value, count, to);
      }
    }
  }

  lemma MintProtocolKeeps(s: State, caller: Address, count: nat, payment: Payment)
    requires Inv(s)
    ensures var r := MintProtocol(s, caller, count, payment); r.Success? ==> Inv(r.value) && Grows(s, r.value)
  {
    if s.protocolMinted + count <= PROTOCOL_CAP {
      var raised := s.(protocolMinted := s.protocolMinted + count);
      MintPaidOutcome(raised, count, s.protocolVault, payment);
      var r := MintPaid(raised, count, s.protocolVault, payment);
      if r.Success? {
        MintKeepsInv(s, raised, r.value, count, s.protocolVault);
      }
    }
  }

  lemma GrantKeeps(s: State, isGovernance: bool, recipient: Address, consented: bool, payment: Payment)
    requires Inv(s)
    ensures var r := GrantSponsored(s, isGovernance, recipient, consented, payment);
            r.Success? ==> Inv(r.value) && Grows(s, r.value)
  {
    if recipient != s.protocolVault {
      MintPaidOutcome(s, 1, recipient, payment);
      var r := MintPaid(s, 1, recipient, payment);
      if r.Success? {
        MintKeepsInv(s, s, r.value, 1, recipient);
      }
    }
  }

  /** A transfer neither takes a card from the vault nor puts one in. */
  lemma TransferKeeps(s: State, from: Address, to: Address, id: nat, authorized: bool, eligible: bool)
    requires Inv(s)
    ensures var r := Transfer(s, from, to, id, authorized, eligible);
            r.Success? ==> Inv(r.value) && Grows(s, r.value) && VaultIds(r.value) == VaultIds(s)
  {
    var r := Transfer(s, from, to, id, authorized, eligible);
    if r.Success? {
      assert VaultIds(r.value) == VaultIds(s);
    }
  }

  lemma ConfigureKeeps(s: State, isGovernance: bool, vault: Address)
    requires Inv(s)
    ensures var r := ConfigureProtocolVault(s, isGovernance, vault);
            r.Success? ==> Inv(r.value) && Grows(s, r.value) && VaultIds(r.value) == {} == VaultIds(s)
  {
    var r := ConfigureProtocolVault(s, isGovernance, vault);
    if r.Success? {
      assert VaultIds(s) == {} == VaultIds(r.value);
    }
  }

  // ---- What decides a mint or a transfer ----

  lemma {:induction false} MintIdsDecides(s: State, to: Address, first: nat, count: nat, eligible: bool)
    requires 0 < count && forall id <- s.owner :: id < first
    requires forall id <- s.owner :: s.owner[id] != NOBODY
    ensures MintIds(s, to, first, count, eligible).Success? <==> to != NOBODY && eligible
    decreases count
  {
    if 1 < count && to != NOBODY && eligible {
      MintIdsDecides(s.(owner := s.owner[first := to]), to, first + 1, count - 1, eligible);
    }
  }

  /** The terms every paid mint is bound to: up to 20 cards at once, 5000 in all, at the price of each. */
  predicate Affordable(s: State, count: nat, payment: Payment) {
    && 0 < count <= 20 && TotalSupply(s) + count <= 5_000
    && payment.fee == payment.price * count && payment.burns && payment.eligible
  }

  /** A public mint: not into the vault, within the address cap, and it creates exactly the next `count` ids. */
  lemma MintDecides(s: State, count: nat, to: Address, payment: Payment)
    requires Inv(s)
    ensures var r := Mint(s, count, to, payment);
            && (r.Success? <==>
                  to != s.protocolVault && to != NOBODY && Affordable(s, count, payment)
                  && Minted(s, to) + count <= s.mintCap)
            && (r.Success? ==> MintedBy(s, r.value, count, to))
  {
    PaidMintDecides(s, count, to, payment);
    MintPaidOutcome(s, count, to, payment);
  }

  /** Governance grants one card to someone who consented, on the same terms. */
  lemma GrantDecides(s: State, isGovernance: bool, recipient: Address, consented: bool, payment: Payment)
    requires Inv(s)
    ensures var r := GrantSponsored(s, isGovernance, recipient, consented, payment);
            && (r.Success? <==>
                  isGovernance && consented && recipient != s.protocolVault && recipient != NOBODY
                  && Affordable(s, 1, payment) && Minted(s, recipient) + 1 <= s.mintCap)
            && (r.Success? ==> MintedBy(s, r.value, 1, recipient))
  {
    PaidMintDecides(s, 1, recipient, payment);
    MintPaidOutcome(s, 1, recipient, payment);
  }

  /** A protocol mint: by the vault alone, into the vault, up to 1000 cards. */
  lemma ProtocolMintDecides(s: State, caller: Address, count: nat, payment: Payment)
    requires Inv(s)
    ensures var r, raised := MintProtocol(s, caller, count, payment), s.(protocolMinted := s.protocolMinted + count);
            && (r.Success? <==>
                  caller != NOBODY && caller == s.protocolVault && s.protocolMinted + count <= 1_000
                  && Affordable(s, count, payment))
            && (r.Success? ==> MintedBy(raised, r.value, count, s.protocolVault))
  {
    var raised := s.(protocolMinted := s.protocolMinted + count);
    PaidMintDecides(raised, count, s.protocolVault, payment);
    MintPaidOutcome(raised, count, s.protocolVault, payment);
  }

  lemma PaidMintDecides(s: State, count: nat, to: Address, payment: Payment)
    requires (forall id <- s.owner :: id < s.nextTokenId && s.owner[id] != NOBODY)
    ensures MintPaid(s, count, to, payment).Success? <==>
              to != NOBODY && Affordable(s, count, payment)
              && (to == s.protocolVault || Minted(s, to) + count <= s.mintCap)
  {
    var s1 := if to == s.protocolVault then s else s.(mintedTo := s.mintedTo[to := Minted(s, to) + count]);
    if 0 < count {
      MintIdsDecides(s1.(nextTokenId := s.nextTokenId + count), to, s.nextTokenId, count, payment.eligible);
    }
  }

  /** A transfer: by leave of the owner, to an eligible one, with the vault on neither end; it moves that card alone. */
  lemma TransferDecides(s: State, from: Address, to: Address, id: nat, authorized: bool, eligible: bool)
    requires Inv(s)
    ensures var r := Transfer(s, from, to, id, authorized, eligible);
            && (r.Success? <==>
                  && id in s.owner && s.owner[id] == from != s.protocolVault
                  && to != NOBODY && to != s.protocolVault && authorized && eligible)
            && (r.Success? ==> r.value == s.(owner := s.owner[id := to]))
  {
  }
}
