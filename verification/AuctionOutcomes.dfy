/** What opening, bidding, settling and calling off do: the terms stored, who pays and receives how much, and exactly when they succeed. */
module AuctionOutcomes {
  import opened Prelude
  import opened Naming
  import opened Ledger
  import opened Economics
  import opened Registry
  import opened Payments
  import opened RecordOutcomes
  import opened SaleOutcomes
  import opened AuctionSafety

  // ----- `$SOLANS` flows

  /** Every account's `$SOLANS` change by `flow`, and nothing else in the bank does. */
  ghost predicate SolansFlow(before: Bank, after: Bank, flow: Account -> int) {
    && after == before.(solans := after.solans)
    && forall a :: Get(after.solans, a) == Get(before.solans, a) + flow(a)
  }

  lemma TransferFlow(bank: Bank, from: Account, to: Account, amount: nat)
    ensures MakeMove(bank, PaySolans(from, to, amount)).Some? <==> amount <= Get(bank.solans, from)
    ensures MakeMove(bank, PaySolans(from, to, amount)).Some? ==>
              SolansFlow(bank, MakeMove(bank, PaySolans(from, to, amount)).value, a => Part(a, to, amount) - Part(a, from, amount))
  {
  }

  // ----- opening

  /** An auction stores its seller, reserve, increment and end, freezes the name and creates an empty vault. */
  lemma OpenAuctionIs(s: State, id: NameId, signer: Pubkey, reserve: U64, minIncrement: U64, duration: int)
    ensures Step(s, OnName(id, OpenAuction(signer, reserve, minIncrement, duration)))
            == if FreeOwner(s, id, signer) && id !in s.auctions && s.config.solansMint != 0 && s.config.solansRate > 0
                  && s.records[id].parent == None && !s.records[id].transferLocked
                  && 0 < duration && s.now + duration <= I64_MAX && BidVault(id) !in s.bank.solans
               then Some(s.(records := s.records[id := s.records[id].(listed := true)],
                            auctions := s.auctions[id := Auction(signer, None, 0, reserve, minIncrement, s.now + duration)],
                            bank := s.bank.(solans := s.bank.solans[BidVault(id) := 0])))
               else None
  {
    var op := OpenAuction(signer, reserve, minIncrement, duration);
    var effect := Perform(EnvOf(s), id, CellOf(s, id), op);
    PutLookup(s.listings, id);
    OneMove(s.bank, OpenVault(BidVault(id)));
    OnNameIs(s, id, op, effect);
  }

  // ----- bidding

  /** The least acceptable bid. */
  function Threshold(a: Auction): nat {
    match a.highestBidder
    case None => a.reserve
    case Some(_) => a.highestBid + a.minIncrement
  }

  predicate Biddable(s: State, id: NameId, bidder: Pubkey, amount: nat) {
    && id in s.auctions
    && var a := s.auctions[id];
       && s.now < a.endTime && bidder != a.seller && 0 < amount
       && Threshold(a) <= amount && Threshold(a) <= U64_MAX && s.now + 300 <= I64_MAX
  }

  /** What is refunded to account `a`: the standing bid, to whoever made it. */
  function RefundTo(au: Auction, a: Account): nat {
    match au.highestBidder
    case Some(prev) => Part(a, Wallet(prev), au.highestBid)
    case None => 0
  }

  /** What account `a` gets, and pays, of a bid. */
  function BidFlowOf(id: NameId, au: Auction, bidder: Pubkey, amount: nat, a: Account): int {
    Part(a, BidVault(id), amount) + RefundTo(au, a)
    - (if au.highestBidder.Some? then Part(a, BidVault(id), au.highestBid) else 0) - Part(a, Wallet(bidder), amount)
  }

  /** The vault can refund the standing bid, and the bidder, refunded first if it was its own, can pay. */
  predicate Fundable(bank: Bank, id: NameId, au: Auction, bidder: Pubkey, amount: nat) {
    && (au.highestBidder.Some? ==> au.highestBid <= Get(bank.solans, BidVault(id)))
    && amount <= Get(bank.solans, Wallet(bidder)) + RefundTo(au, Wallet(bidder))
  }

  lemma BidPaid(bank: Bank, id: NameId, au: Auction, bidder: Pubkey, amount: nat)
    ensures MakeMoves(bank, BidMoves(id, au, bidder, amount)).Some? <==> Fundable(bank, id, au, bidder, amount)
    ensures MakeMoves(bank, BidMoves(id, au, bidder, amount)).Some? ==>
              SolansFlow(bank, MakeMoves(bank, BidMoves(id, au, bidder, amount)).value, a => BidFlowOf(id, au, bidder, amount, a))
  {
    var pay := PaySolans(Wallet(bidder), BidVault(id), amount);
    match au.highestBidder
    case None =>
      assert BidMoves(id, au, bidder, amount) == [pay];
      OneMove(bank, pay);
      TransferFlow(bank, Wallet(bidder), BidVault(id), amount);
    case Some(prev) =>
      var refund := PaySolans(BidVault(id), Wallet(prev), au.highestBid);
      assert BidMoves(id, au, bidder, amount) == [refund, pay];
      FewMoves(bank, refund, pay);
      TransferFlow(bank, BidVault(id), Wallet(prev), au.highestBid);
      if MakeMove(bank, refund).Some? {
        var half := MakeMove(bank, refund).value;
        assert Get(half.solans, Wallet(bidder)) == Get(bank.solans, Wallet(bidder)) + RefundTo(au, Wallet(bidder));
        TransferFlow(half, Wallet(bidder), BidVault(id), amount);
        if MakeMove(half, pay).Some? {
          SolansFlowsAdd(bank, half, MakeMove(half, pay).value,
                         a => Part(a, Wallet(prev), au.highestBid) - Part(a, BidVault(id), au.highestBid),
                         a => Part(a, BidVault(id), amount) - Part(a, Wallet(bidder), amount));
        }
      }
  }

  lemma SolansFlowsAdd(a: Bank, b: Bank, c: Bank, f: Account -> int, g: Account -> int)
    requires SolansFlow(a, b, f) && SolansFlow(b, c, g)
    ensures SolansFlow(a, c, x => f(x) + g(x))
  {
    forall x ensures Get(c.solans, x) == Get(a.solans, x) + (f(x) + g(x)) {
      assert Get(b.solans, x) == Get(a.solans, x) + f(x);
    }
  }

  /** The auction after a bid: it is the standing one, and leaves at least 300 seconds. */
  function Outbid(a: Auction, bidder: Pubkey, amount: nat, now: int): Auction {
    Auction(a.seller, Some(bidder), amount, a.reserve, a.minIncrement, if a.endTime < now + 300 then now + 300 else a.endTime)
  }

  lemma BiddableIs(s: State, id: NameId, bidder: Pubkey, amount: U64)
    ensures Perform(EnvOf(s), id, CellOf(s, id), PlaceBid(bidder, amount))
            == if Biddable(s, id, bidder, amount)
               then Some(Effect(CellOf(s, id).(auction := Some(Outbid(s.auctions[id], bidder, amount, s.now))),
                                BidMoves(id, s.auctions[id], bidder, amount)))
               else None
  {
  }

  /** A bid succeeds exactly when it is timely, high enough, not the seller's own and funded; it becomes the standing bid and may extend the auction. */
  lemma BidIs(s: State, id: NameId, bidder: Pubkey, amount: U64)
    ensures var ix := OnName(id, PlaceBid(bidder, amount));
            && (Step(s, ix).Some? <==> Biddable(s, id, bidder, amount) && Fundable(s.bank, id, s.auctions[id], bidder, amount))
            && (Step(s, ix).Some? ==>
                  && Next(s, ix) == s.(auctions := s.auctions[id := Outbid(s.auctions[id], bidder, amount, s.now)], bank := Next(s, ix).bank)
                  && SolansFlow(s.bank, Next(s, ix).bank, x => BidFlowOf(id, s.auctions[id], bidder, amount, x)))
  {
    var op := PlaceBid(bidder, amount);
    BiddableIs(s, id, bidder, amount);
    OnNameIs(s, id, op, Perform(EnvOf(s), id, CellOf(s, id), op));
    if Biddable(s, id, bidder, amount) {
      PutLookup(s.records, id);
      PutLookup(s.listings, id);
      BidPaid(s.bank, id, s.auctions[id], bidder, amount);
    }
  }

  /** An auction with the terms its seller asked for, after accepted bids at the given times. */
  predicate BidUp(a: Auction, signer: Pubkey, reserve: nat, minIncrement: nat, end: int, times: seq<int>) {
    && a.seller == signer
    && (times == [] ==> a.highestBidder == None && a.endTime == end)
    && (times != [] ==>
          && a.highestBidder.Some? && a.highestBid >= reserve + (|times| - 1) * minIncrement
          && a.endTime == (if end < times[|times| - 1] + 300 then times[|times| - 1] + 300 else end))
  }

  lemma BidUpFrom(a: Auction, signer: Pubkey, reserve: nat, minIncrement: nat, end: int, times: seq<int>)
    requires Advanced(Auction(signer, None, 0, reserve, minIncrement, end), a, times)
    ensures BidUp(a, signer, reserve, minIncrement, end, times)
  {
  }

  lemma OpensAs(s: State, id: NameId, signer: Pubkey, reserve: U64, minIncrement: U64, duration: int)
    requires Step(s, OnName(id, OpenAuction(signer, reserve, minIncrement, duration))).Some?
    ensures var first := Next(s, OnName(id, OpenAuction(signer, reserve, minIncrement, duration)));
            id in first.auctions && first.auctions[id] == Auction(signer, None, 0, reserve, minIncrement, s.now + duration)
  {
    OpenAuctionIs(s, id, signer, reserve, minIncrement, duration);
  }

  /**
   * From its opening on, in terms of what its seller asked for: while the auction stays open, its
   * n-th accepted bid is at least the reserve plus n - 1 increments, and it closes at the asked
   * time or 300 seconds after the last bid, whichever is later.
   */
  lemma BidsFromReserve(s: State, id: NameId, signer: Pubkey, reserve: U64, minIncrement: U64, duration: int, first: State, ixs: seq<Instruction>)
    requires Step(s, OnName(id, OpenAuction(signer, reserve, minIncrement, duration))) == Some(first)
    requires Live(first, ixs, id)
    ensures id in Run(first, ixs).auctions
    ensures BidUp(Run(first, ixs).auctions[id], signer, reserve, minIncrement, s.now + duration, BidTimes(first, ixs, id))
  {
    OpensAs(s, id, signer, reserve, minIncrement, duration);
    AuctionProgress(first, ixs, id);
    BidUpFrom(Run(first, ixs).auctions[id], signer, reserve, minIncrement, s.now + duration, BidTimes(first, ixs, id));
  }

  // ----- ending

  /** What account `a` gets of a settlement; the vault is closed. */
  function SettlementTo(c: Config, au: Auction, a: Account): int {
    if au.highestBidder.Some? then Part(a, Wallet(au.seller), SatSub(au.highestBid, FeeOn(c, au.highestBid))) else 0
  }

  /** The record of a settled name: the winner's, clean, or the seller's as it was; no longer on sale. */
  function SoldRecord(r: NameRecord, winner: Option<Pubkey>): NameRecord {
    match winner
    case Some(w) => r.(owner := w, controller := None, reverseSet := false, listed := false)
    case None => r.(listed := false)
  }

  /** The seller gets the bid less the fee, the fee is burnt, the vault disappears, and the name goes to the winner. */
  lemma SettleIs(s: State, id: NameId)
    requires VaultInv(s) && Step(s, OnName(id, Settle)).Some?
    ensures id in s.records && id in s.auctions
    ensures var t, a := Next(s, OnName(id, Settle)), s.auctions[id];
            && t == s.(records := s.records[id := SoldRecord(s.records[id], a.highestBidder)], auctions := s.auctions - {id}, bank := t.bank)
            && t.bank == s.bank.(solans := t.bank.solans, supply := t.bank.supply)
            && t.bank.supply == s.bank.supply - (if a.highestBidder.Some? then FeeOn(s.config, a.highestBid) else 0)
            && BidVault(id) !in t.bank.solans
            && forall w :: Get(t.bank.solans, Wallet(w)) == Get(s.bank.solans, Wallet(w)) + SettlementTo(s.config, a, Wallet(w))
  {
    SettlementExact(s, id);
    var a := s.auctions[id];
    var effect := Effect(CellOf(s, id).(record := Some(SoldRecord(s.records[id], a.highestBidder)), auction := None), SettleMoves(s.config, id, a));
    assert Perform(EnvOf(s), id, CellOf(s, id), Settle) == Some(effect);
    OnNameIs(s, id, Settle, Some(effect));
    PutLookup(s.listings, id);
    SettlePaid(s.config, s.bank, id, a);
  }

  lemma SettlePaid(c: Config, bank: Bank, id: NameId, a: Auction)
    requires ValidConfig(c) && MakeMoves(bank, SettleMoves(c, id, a)).Some? && BidBacked(a, VaultOf(bank, id))
    ensures var after := MakeMoves(bank, SettleMoves(c, id, a)).value;
            && after == bank.(solans := after.solans, supply := after.supply)
            && after.supply == bank.supply - (if a.highestBidder.Some? then FeeOn(c, a.highestBid) else 0)
            && BidVault(id) !in after.solans
            && forall w :: Get(after.solans, Wallet(w)) == Get(bank.solans, Wallet(w)) + SettlementTo(c, a, Wallet(w))
  {
    var after := MakeMoves(bank, SettleMoves(c, id, a)).value;
    FeeWithin(c, a.highestBid);
    OnlySolans(bank, SettleMoves(c, id, a));
    forall w ensures Get(after.solans, Wallet(w)) == Get(bank.solans, Wallet(w)) + SettlementTo(c, a, Wallet(w)) {
      SettleFlow(c, bank, id, a, Wallet(w));
    }
    SettleFlow(c, bank, id, a, BidVault(id));
  }

  lemma {:induction false} OnlySolans(bank: Bank, moves: seq<Move>)
    requires forall i :: 0 <= i < |moves| ==> moves[i].PaySolans? || moves[i].BurnSolans? || moves[i].CloseVault?
    requires MakeMoves(bank, moves).Some?
    ensures var after := MakeMoves(bank, moves).value; after == bank.(solans := after.solans, supply := after.supply)
    decreases |moves|
  {
    if moves != [] {
      OnlySolans(MakeMove(bank, moves[0]).value, moves[1..]);
    }
  }

  /** Calling off frees the name and closes the empty vault; nobody is paid. */
  lemma CallOffIs(s: State, id: NameId, signer: Pubkey)
    ensures Step(s, OnName(id, CallOff(signer)))
            == if id in s.records && id in s.auctions && s.auctions[id].seller == signer && s.auctions[id].highestBidder == None
                  && Get(s.bank.solans, BidVault(id)) == 0
               then Some(s.(records := s.records[id := s.records[id].(listed := false)], auctions := s.auctions - {id},
                            bank := s.bank.(solans := s.bank.solans - {BidVault(id)})))
               else None
  {
    var op := CallOff(signer);
    var effect := Perform(EnvOf(s), id, CellOf(s, id), op);
    PutLookup(s.listings, id);
    OneMove(s.bank, CloseVault(BidVault(id)));
    OnNameIs(s, id, op, effect);
  }
}
