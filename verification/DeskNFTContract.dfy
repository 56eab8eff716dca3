/** src/v3/DeskNFT.sol, minting and transfers method by method; proved against DeskNFTModel. */
module DeskNFTContract {
  import opened Balances
  import opened Outcomes
  import opened Model = DeskNFTModel

  class DeskNFT {
    var nextTokenId: nat
    var owner: map<nat, Address>
    var mintedTo: map<Address, nat>
    var mintCap: nat
    var protocolVault: Address
    var protocolMinted: nat

    ghost function Snapshot(): State
      reads this
    {
      State(nextTokenId, owner, mintedTo, mintCap, protocolVault, protocolMinted)
    }

    ghost predicate Valid()
      reads this
    {
      Inv(Snapshot())
    }

    constructor ()
      ensures Snapshot() == Deployed() && Valid()
    {
      nextTokenId, owner, mintedTo := 1, map[], map[];
      mintCap, protocolVault, protocolMinted := 50, NOBODY, 0;
      new;
      DeployedInv();
    }

    function TotalSupply(): (n: nat)
      reads this
      ensures n == Model.TotalSupply(Snapshot())
    {
      if nextTokenId == 0 then 0 else nextTokenId - 1
    }

    function OwnerOf(id: nat): Address
      reads this
    {
      if id in owner then owner[id] else NOBODY
    }

    /** _update. */
    method Update(to: Address, id: nat, eligible: bool) returns (r: Result<Unit, Error>)
      modifies `owner
      ensures RealizesUnit(Model.Update(old(Snapshot()), to, id, eligible), old(Snapshot()), Snapshot(), r)
    {
      var from := OwnerOf(id);
      if from != NOBODY && from == protocolVault {
        return Failure(ProtocolLocked);
      }
      if to == protocolVault && from != NOBODY {
        return Failure(ProtocolMintOnly);
      }
      if !eligible {
        return Failure(Ineligible);
      }
      owner := owner[id := to];
      return Success(Unit);
    }

    /** _safeMint. */
    method MintId(to: Address, id: nat, eligible: bool) returns (r: Result<Unit, Error>)
      modifies `owner
      ensures RealizesUnit(Model.MintId(old(Snapshot()), to, id, eligible), old(Snapshot()), Snapshot(), r)
    {
      if to == NOBODY {
        return Failure(ZeroAddress);
      }
      if id in owner {
        return Failure(AlreadyMinted);
      }
      r := Update(to, id, eligible);
    }

    /** The loop of `_mintPaid`; a revert of any mint takes back all of them. */
    method MintIds(to: Address, first: nat, count: nat, eligible: bool) returns (r: Result<Unit, Error>)
      modifies `owner
      ensures RealizesUnit(Model.MintIds(old(Snapshot()), to, first, count, eligible), old(Snapshot()), Snapshot(), r)
    {
      var before := owner;
      var id := first;
      while id < first + count
        invariant first <= id <= first + count
        invariant Snapshot() == old(Snapshot()).(owner := owner)
        invariant Model.MintIds(Snapshot(), to, id, first + count - id, eligible)
                  == Model.MintIds(old(Snapshot()), to, first, count, eligible)
      {
        var minted := MintId(to, id, eligible);
        if minted.Failure? {
          owner := before;
          return minted;
        }
        id := id + 1;
      }
      return Success(Unit);
    }

    /** _mintPaid, up to the surcharge it hands to the rewards. */
    method MintPaid(count: nat, to: Address, payment: Payment) returns (r: Result<Unit, Error>)
      modifies `nextTokenId, `owner, `mintedTo
      ensures RealizesUnit(Model.MintPaid(old(Snapshot()), count, to, payment), old(Snapshot()), Snapshot(), r)
    {
      hide Model.MintIds;
      if count == 0 || MAX_PER_MINT < count || MAX_SUPPLY < TotalSupply() + count {
        return Failure(MintCapacity);
      }
      var before := mintedTo;
      if to != protocolVault {
        var minted := (if to in mintedTo then mintedTo[to] else 0) + count;
        if mintCap < minted {
          return Failure(AddressMintCap);
        }
        mintedTo := mintedTo[to := minted];
      }
      if payment.fee != payment.price * count {
        mintedTo := before;
        return Failure(SurchargePayment);
      }
      if !payment.burns {
        mintedTo := before;
        return Failure(BurnFailed);
      }
      var first := nextTokenId;
      nextTokenId := nextTokenId + count;
      r := MintIds(to, first, count, payment.eligible);
      if r.Failure? {
        nextTokenId, mintedTo := first, before;
      }
    }

    /** No address is ever minted more than the cap, and the vault cannot be minted to. */
    method Mint(count: nat, to: Address, payment: Payment) returns (r: Result<Unit, Error>)
      modifies `nextTokenId, `owner, `mintedTo
      ensures RealizesUnit(Model.Mint(old(Snapshot()), count, to, payment), old(Snapshot()), Snapshot(), r)
      ensures old(Valid()) ==> Valid()
    {
      if Valid() { MintKeeps(Snapshot(), count, to, payment); }
      if to == protocolVault {
        return Failure(ProtocolMintOnly);
      }
      r := MintPaid(count, to, payment);
    }

    method MintProtocol(caller: Address, count: nat, payment: Payment) returns (r: Result<Unit, Error>)
      modifies `nextTokenId, `owner, `mintedTo, `protocolMinted
      ensures RealizesUnit(Model.MintProtocol(old(Snapshot()), caller, count, payment), old(Snapshot()), Snapshot(), r)
      ensures old(Valid()) ==> Valid()
    {
      if Valid() { MintProtocolKeeps(Snapshot(), caller, count, payment); }
      if caller == NOBODY || caller != protocolVault || PROTOCOL_CAP < protocolMinted + count {
        return Failure(ProtocolCap);
      }
      protocolMinted := protocolMinted + count;
      r := MintPaid(count, protocolVault, payment);
      if r.Failure? {
        protocolMinted := protocolMinted - count;
      }
    }

    method GrantSponsored(isGovernance: bool, recipient: Address, consented: bool, payment: Payment)
      returns (r: Result<Unit, Error>)
      modifies `nextTokenId, `owner, `mintedTo
      ensures RealizesUnit(Model.GrantSponsored(old(Snapshot()), isGovernance, recipient, consented, payment),
                           old(Snapshot()), Snapshot(), r)
      ensures old(Valid()) ==> Valid()
    {
      if Valid() { GrantKeeps(Snapshot(), isGovernance, recipient, consented, payment); }
      if !isGovernance || recipient == protocolVault {
        return Failure(NotGovernance);
      }
      if !consented {
        return Failure(SponsorConsent);
      }
      r := MintPaid(1, recipient, payment);
    }

    method TransferFrom(from: Address, to: Address, id: nat, authorized: bool, eligible: bool)
      returns (r: Result<Unit, Error>)
      modifies `owner
      ensures RealizesUnit(Model.Transfer(old(Snapshot()), from, to, id, authorized, eligible),
                           old(Snapshot()), Snapshot(), r)
      ensures old(Valid()) ==> Valid()
    {
      if Valid() { TransferKeeps(Snapshot(), from, to, id, authorized, eligible); }
      if to == NOBODY {
        return Failure(ZeroAddress);
      }
      if id !in owner {
        return Failure(NonexistentToken);
      }
      if !authorized {
        return Failure(NotAuthorized);
      }
      var before := owner;
      r := Update(to, id, eligible);
      if r.Success? && before[id] != from {
        owner := before;
        return Failure(NotOwner);
      }
    }

    method ConfigureProtocolVault(isGovernance: bool, vault: Address) returns (r: Result<Unit, Error>)
      modifies `protocolVault
      ensures RealizesUnit(Model.ConfigureProtocolVault(old(Snapshot()), isGovernance, vault),
                           old(Snapshot()), Snapshot(), r)
      ensures old(Valid()) ==> Valid()
    {
      if Valid() { ConfigureKeeps(Snapshot(), isGovernance, vault); }
      if !isGovernance || protocolVault != NOBODY || vault == NOBODY || (exists id <- owner :: owner[id] == vault) {
        return Failure(VaultConfiguration);
      }
      protocolVault := vault;
      return Success(Unit);
    }
  }
}
