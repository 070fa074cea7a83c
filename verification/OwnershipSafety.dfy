/** Who can make a name change hands, and the one way it happens without the owner's consent. */
module OwnershipSafety {
  import opened Prelude
  import opened Naming
  import opened Registry
  import opened MarketSafety
  import opened AuctionSafety

  function OwnerOf(s: State, id: NameId): Option<Pubkey> {
    if id in s.records then Some(s.records[id].owner) else None
  }

  // ----- one instruction

  /**
   * The operation has the owner's consent, or that of the NFT's holder while tokenized; or the name
   * lapsed and its grace period is over.
   */
  predicate ConsentedOp(e: Env, c: Cell, op: NameOp) {
    c.record.Some? &&
    var r := c.record.value;
    match op
    case Give(signer, _) => signer == r.owner
    case Release(signer) => signer == r.owner
    case Buy(_, _) => c.listing.Some? && c.listing.value.seller == r.owner
    case Settle => c.auction.Some? && c.auction.value.seller == r.owner
    case Redeem(nft) => r.nftMint == Some(nft.mint) && nft.amount == 1
    case Claim(_, _, _, _, _) => e.now > r.expiresAt + e.config.gracePeriod
    case _ => false
  }

  predicate Consented(s: State, ix: Instruction, id: NameId) {
    match ix
    case OnName(x, op) => x == id && ConsentedOp(EnvOf(s), CellOf(s, id), op)
    case AcceptOffer(signer, x, _) => x == id && OwnerOf(s, id) == Some(signer)
    case RevokeSubdomain(signer, parent, child) =>
      child == id && OwnerOf(s, parent) == Some(signer) && id in s.records && s.records[id].parent == Some(parent)
    case _ => false
  }

  /** An auction opened by somebody who no longer owns the name has a winner. */
  predicate Stale(c: Cell) {
    && c.record.Some? && c.auction.Some?
    && c.auction.value.seller != c.record.value.owner
    && c.auction.value.highestBidder.Some?
    && c.auction.value.highestBidder.value != c.record.value.owner
  }

  predicate StaleSettlement(s: State, ix: Instruction, id: NameId) {
    ix == OnName(id, Settle) && Step(s, ix).Some? && Stale(CellOf(s, id))
  }

  function CellOwner(c: Cell): Option<Pubkey> {
    if c.record.Some? then Some(c.record.value.owner) else None
  }

  lemma PerformOwner(e: Env, id: NameId, c: Cell, op: NameOp)
    requires Perform(e, id, c, op).Some? && c.record.Some?
    ensures CellOwner(Perform(e, id, c, op).value.cell) != CellOwner(c) ==> (ConsentedOp(e, c, op) <==> !(op.Settle? && Stale(c)))
    ensures op.Settle? && Stale(c) ==> CellOwner(Perform(e, id, c, op).value.cell) == c.auction.value.highestBidder
  {
    if TermOp(op) {
      TermOwner(e, id, c, op);
    } else if ListingOp(op) {
      ListingOwner(e, id, c, op);
    }
  }

  lemma TermOwner(e: Env, id: NameId, c: Cell, op: NameOp)
    requires Perform(e, id, c, op).Some? && c.record.Some? && TermOp(op)
    ensures CellOwner(Perform(e, id, c, op).value.cell) != CellOwner(c) ==> ConsentedOp(e, c, op)
  {
  }

  lemma ListingOwner(e: Env, id: NameId, c: Cell, op: NameOp)
    requires Perform(e, id, c, op).Some? && c.record.Some? && ListingOp(op)
    ensures CellOwner(Perform(e, id, c, op).value.cell) != CellOwner(c) ==> ConsentedOp(e, c, op)
  {
  }

  lemma OthersKeepOwner(s: State, ix: Instruction, id: NameId)
    requires Touched(ix) != Some(id)
    ensures OwnerOf(Next(s, ix), id) == OwnerOf(s, id)
  {
    OtherCellsKept(s, ix, id);
    assert CellOf(Next(s, ix), id).record == CellOf(s, id).record;
  }

  /** A name that changes hands, or closes, does so with consent, exactly when this is not the settlement of a stale auction. */
  lemma OwnerChangeExact(s: State, ix: Instruction, id: NameId)
    requires id in s.records && OwnerOf(Next(s, ix), id) != OwnerOf(s, id)
    ensures Consented(s, ix, id) <==> !StaleSettlement(s, ix, id)
  {
    if Touched(ix) != Some(id) {
      OthersKeepOwner(s, ix, id);
    } else if ix.OnName? {
      var effect := Perform(EnvOf(s), id, CellOf(s, id), ix.op);
      OnNameIs(s, id, ix.op, effect);
      PutCellOther(s, id, effect.value.cell, id);
      assert CellOf(Next(s, ix), id) == effect.value.cell;
      PerformOwner(EnvOf(s), id, CellOf(s, id), ix.op);
    }
  }

  /** Settling a stale auction always takes the name from its owner. */
  lemma StaleSettlementTakes(s: State, ix: Instruction, id: NameId)
    requires StaleSettlement(s, ix, id)
    ensures OwnerOf(Next(s, ix), id) == s.auctions[id].highestBidder != OwnerOf(s, id)
  {
    var effect := Perform(EnvOf(s), id, CellOf(s, id), Settle);
    OnNameIs(s, id, Settle, effect);
    PutCellOther(s, id, effect.value.cell, id);
    assert CellOf(Next(s, ix), id) == effect.value.cell;
    PerformOwner(EnvOf(s), id, CellOf(s, id), Settle);
  }

  /** And nothing but its clock and its vault protects the owner: anyone can settle it once it is over. */
  lemma StaleAuctionSettles(s: State, id: NameId)
    requires VaultInv(s) && Stale(CellOf(s, id)) && s.now >= s.auctions[id].endTime && Surplus(s, id) == 0
    ensures StaleSettlement(s, OnName(id, Settle), id)
    ensures OwnerOf(Next(s, OnName(id, Settle)), id) == s.auctions[id].highestBidder
  {
    SettlementExact(s, id);
    StaleSettlementTakes(s, OnName(id, Settle), id);
  }

  // ----- whole runs

  /** Whenever the name changes hands or closes during the run, it does so with consent. */
  predicate AlwaysConsented(s: State, ixs: seq<Instruction>, id: NameId)
    decreases |ixs|
  {
    ixs == [] ||
      (&& (id in s.records && OwnerOf(Next(s, ixs[0]), id) != OwnerOf(s, id) ==> Consented(s, ixs[0], id))
       && AlwaysConsented(Next(s, ixs[0]), ixs[1..], id))
  }

  predicate NeverStale(s: State, ixs: seq<Instruction>, id: NameId)
    decreases |ixs|
  {
    ixs == [] || (!StaleSettlement(s, ixs[0], id) && NeverStale(Next(s, ixs[0]), ixs[1..], id))
  }

  lemma ConsentStep(s: State, ix: Instruction, id: NameId)
    ensures (id in s.records && OwnerOf(Next(s, ix), id) != OwnerOf(s, id) ==> Consented(s, ix, id)) <==> !StaleSettlement(s, ix, id)
  {
    if StaleSettlement(s, ix, id) {
      StaleSettlementTakes(s, ix, id);
    }
    if id in s.records && OwnerOf(Next(s, ix), id) != OwnerOf(s, id) {
      OwnerChangeExact(s, ix, id);
    }
  }

  /** Over any run a name changes hands only with consent, exactly when the run settles no stale auction on it. */
  lemma {:induction false} OwnershipExact(s: State, ixs: seq<Instruction>, id: NameId)
    ensures AlwaysConsented(s, ixs, id) <==> NeverStale(s, ixs, id)
    decreases |ixs|
  {
    if ixs != [] {
      ConsentStep(s, ixs[0], id);
      OwnershipExact(Next(s, ixs[0]), ixs[1..], id);
    }
  }

  /** In particular over every run in which no claim hits a name with an open market account. */
  lemma {:induction false} OrderlyOwnership(s: State, ixs: seq<Instruction>, id: NameId)
    requires AllInterlocked(s) && OrderlyRun(s, ixs)
    ensures AlwaysConsented(s, ixs, id)
    decreases |ixs|
  {
    if ixs != [] {
      assert Interlocked(CellOf(s, id));
      ConsentStep(s, ixs[0], id);
      if Step(s, ixs[0]).Some? {
        InterlockExact(s, ixs[0]);
      }
      OrderlyOwnership(Next(s, ixs[0]), ixs[1..], id);
    }
  }

  // ----- sales are opened by their sellers

  /** A successful opening of a sale of `id`, signed by its owner `w`. */
  predicate Opens(s: State, ix: Instruction, id: NameId, w: Pubkey) {
    && ix.OnName? && ix.id == id && (ix.op.OpenListing? || ix.op.OpenAuction?) && ix.op.signer == w
    && Step(s, ix).Some? && OwnerOf(s, id) == Some(w)
  }

  predicate OpenedDuring(s: State, ixs: seq<Instruction>, id: NameId, w: Pubkey)
    decreases |ixs|
  {
    ixs != [] && (Opens(s, ixs[0], id, w) || OpenedDuring(Next(s, ixs[0]), ixs[1..], id, w))
  }

  function Seller(c: Cell, auction: bool): Option<Pubkey> {
    if auction then if c.auction.Some? then Some(c.auction.value.seller) else None
    else if c.listing.Some? then Some(c.listing.value.seller) else None
  }

  lemma PerformSeller(e: Env, id: NameId, c: Cell, op: NameOp, auction: bool)
    requires Perform(e, id, c, op).Some?
    ensures var after := Seller(Perform(e, id, c, op).value.cell, auction);
            after in {None, Seller(c, auction)} || ((op.OpenListing? || op.OpenAuction?) && after == Some(op.signer) == CellOwner(c))
  {
  }

  lemma SellerStep(s: State, ix: Instruction, id: NameId, auction: bool)
    ensures var after := Seller(CellOf(Next(s, ix), id), auction);
            after in {None, Seller(CellOf(s, id), auction)} || Opens(s, ix, id, after.value)
  {
    if Touched(ix) != Some(id) {
      OtherCellsKept(s, ix, id);
    } else if ix.OnName? && Step(s, ix).Some? {
      var effect := Perform(EnvOf(s), id, CellOf(s, id), ix.op);
      OnNameIs(s, id, ix.op, effect);
      PutCellOther(s, id, effect.value.cell, id);
      assert CellOf(Next(s, ix), id) == effect.value.cell;
      PerformSeller(EnvOf(s), id, CellOf(s, id), ix.op, auction);
    }
  }

  /** Over any run, the seller named in a listing or auction opened it itself, as the owner it then was, unless the run began with it. */
  lemma {:induction false} SellersSigned(s: State, ixs: seq<Instruction>, id: NameId, auction: bool)
    ensures var seller := Seller(CellOf(Run(s, ixs), id), auction);
            seller in {None, Seller(CellOf(s, id), auction)} || OpenedDuring(s, ixs, id, seller.value)
    decreases |ixs|
  {
    if ixs != [] {
      SellerStep(s, ixs[0], id, auction);
      SellersSigned(Next(s, ixs[0]), ixs[1..], id, auction);
    }
  }
}
