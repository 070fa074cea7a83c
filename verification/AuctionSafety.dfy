/** English auctions over whole runs: the escrow, every wallet's books, and progress. */
module AuctionSafety {
  import opened Prelude
  import opened Arith
  import opened Sums
  import opened Naming
  import opened Ledger
  import opened Economics
  import opened Registry
  import opened Payments

  // ----- the bid vault

  /** The vault of an auction holds at least the standing bid. */
  predicate VaultBacks(c: Cell, vault: nat) {
    c.auction.Some? ==> BidBacked(c.auction.value, vault)
  }

  predicate BidBacked(a: Auction, vault: nat) {
    vault >= a.highestBid && (a.highestBidder.None? ==> a.highestBid == 0)
  }

  function VaultOf(bank: Bank, id: NameId): nat {
    Get(bank.solans, BidVault(id))
  }

  ghost predicate VaultInv(s: State) {
    && ValidConfig(s.config)
    && (forall id :: VaultBacks(CellOf(s, id), VaultOf(s.bank, id)))
    && Total(s.bank.solans) == s.bank.supply
  }

  /** The handlers that move `$SOLANS` through a vault are bids and settlements, each only through its own. */
  predicate UsesVault(ix: Instruction, id: NameId) {
    ix.OnName? && ix.id == id && (ix.op.PlaceBid? || ix.op.Settle?)
  }

  predicate Touching(moves: seq<Move>, a: Account) {
    exists i :: 0 <= i < |moves| && TouchesSolans(moves[i], a)
  }

  lemma TypicalOtherVault(moves: seq<Move>, id: NameId, other: NameId)
    requires AllTypical(moves, id) && other != id
    ensures !Touching(moves, BidVault(other))
  {
    forall i | 0 <= i < |moves| ensures !TouchesSolans(moves[i], BidVault(other)) {
      assert Typical(moves[i], id);
    }
  }

  lemma PerformSparesVault(e: Env, id: NameId, c: Cell, op: NameOp)
    requires Perform(e, id, c, op).Some? && !op.PlaceBid? && !op.Settle?
    ensures !Touching(Perform(e, id, c, op).value.moves, BidVault(id))
  {
    if TermOp(op) {
      TermTypical(e, id, c, op);
    } else if RecordOp(op) {
      RecordsAreFree(e, id, c, op);
    }
  }

  /** What an instruction pays into a vault from outside the program. */
  function Donation(ix: Instruction, id: NameId): nat {
    if ix.Send? && ix.payment.PaySolans? && ix.payment.to == BidVault(id) then ix.payment.amount else 0
  }

  lemma VaultDonated(s: State, payment: Move, id: NameId)
    requires Step(s, Send(payment)).Some?
    ensures VaultOf(Next(s, Send(payment)).bank, id) == VaultOf(s.bank, id) + Donation(Send(payment), id)
  {
    OneMove(s.bank, payment);
  }

  lemma VaultSpared(s: State, ix: Instruction, id: NameId)
    requires Step(s, ix).Some? && !UsesVault(ix, id)
    ensures VaultOf(Next(s, ix).bank, id) == VaultOf(s.bank, id) + Donation(ix, id)
  {
    if ix.Send? {
      VaultDonated(s, ix.payment, id);
    } else {
      HandlersSpareVault(s, ix, id);
    }
  }

  lemma HandlersSpareVault(s: State, ix: Instruction, id: NameId)
    requires Step(s, ix).Some? && !UsesVault(ix, id) && !ix.Send?
    ensures VaultOf(Next(s, ix).bank, id) == VaultOf(s.bank, id)
  {
    StepPays(s, ix);
    if ix.OnName? {
      var c := CellOf(s, ix.id);
      if ix.id == id {
        PerformSparesVault(EnvOf(s), id, c, ix.op);
      } else {
        PerformTypical(EnvOf(s), ix.id, c, ix.op);
        TypicalOtherVault(MovesOf(s, ix), ix.id, id);
      }
    }
    assert !Touching(MovesOf(s, ix), BidVault(id));
    SolansUntouched(s.bank, MovesOf(s, ix), BidVault(id));
  }

  // ----- bids

  /** The part of an auction's escrow that belongs to wallet `w`: its standing bid. */
  function Standing(a: Option<Auction>, w: Pubkey): nat {
    if a.Some? && a.value.highestBidder == Some(w) then a.value.highestBid else 0
  }

  /** What a bid does to `$SOLANS`: the previous bidder is made whole, the new bidder is debited. */
  lemma BidFlow(bank: Bank, id: NameId, a: Auction, bidder: Pubkey, amount: nat, w: Account)
    requires MakeMoves(bank, BidMoves(id, a, bidder, amount)).Some?
    requires BidBacked(a, VaultOf(bank, id))
    ensures var after := MakeMoves(bank, BidMoves(id, a, bidder, amount)).value;
            && VaultOf(after, id) == VaultOf(bank, id) - a.highestBid + amount
            && after.supply == bank.supply
            && (w.Wallet? ==> Get(after.solans, w) == Get(bank.solans, w) + Standing(Some(a), w.owner) - (if w.owner == bidder then amount else 0))
  {
    var pay := PaySolans(Wallet(bidder), BidVault(id), amount);
    match a.highestBidder
    case Some(prev) =>
      var refund := PaySolans(BidVault(id), Wallet(prev), a.highestBid);
      assert BidMoves(id, a, bidder, amount) == [refund, pay];
      assert MakeMove(bank, refund).Some?;
      TwoMoves(bank, refund, pay);
    case None =>
      assert BidMoves(id, a, bidder, amount) == [pay];
      OneMove(bank, pay);
  }

  /** A settlement that goes through pays the seller, burns the fee and empties a vault that held the bid and nothing else. */
  lemma SettleFlow(c: Config, bank: Bank, id: NameId, a: Auction, w: Account)
    requires ValidConfig(c) && MakeMoves(bank, SettleMoves(c, id, a)).Some?
    requires BidBacked(a, VaultOf(bank, id))
    ensures VaultOf(bank, id) == a.highestBid
    ensures var after := MakeMoves(bank, SettleMoves(c, id, a)).value;
            var fee := if a.highestBidder.Some? then SaleFee(c, a.highestBid) else 0;
            && BidVault(id) !in after.solans
            && fee <= a.highestBid
            && after.supply == bank.supply - fee
            && (w.Wallet? ==> Get(after.solans, w) == Get(bank.solans, w) + (if w.owner == a.seller then a.highestBid - fee else 0))
  {
    var close := CloseVault(BidVault(id));
    SaleFeeBound(c, a.highestBid);
    match a.highestBidder
    case Some(_) =>
      var fee := SaleFee(c, a.highestBid);
      var pay := PaySolans(BidVault(id), Wallet(a.seller), a.highestBid - fee);
      var burn := BurnSolans(BidVault(id), fee);
      assert SettleMoves(c, id, a) == [pay, burn, close];
      SettleChain(bank, pay, burn, BidVault(id));
    case None =>
      assert SettleMoves(c, id, a) == [close];
      OneMove(bank, close);
  }

  lemma SettleChain(bank: Bank, m: Move, n: Move, vault: Account)
    requires MakeMoves(bank, [m, n, CloseVault(vault)]).Some?
    ensures MakeMove(bank, m).Some? && MakeMove(MakeMove(bank, m).value, n).Some?
    ensures var b := MakeMove(MakeMove(bank, m).value, n).value;
            && Get(b.solans, vault) == 0
            && MakeMoves(bank, [m, n, CloseVault(vault)]) == Some(b.(solans := b.solans - {vault}))
  {
    ThreeMoves(bank, m, n, CloseVault(vault));
    assert [m, n] + [CloseVault(vault)] == [m, n, CloseVault(vault)];
  }

  lemma VaultAfterBid(s: State, id: NameId, bidder: Pubkey, amount: U64)
    requires VaultInv(s) && Step(s, OnName(id, PlaceBid(bidder, amount))).Some?
    ensures var t := Next(s, OnName(id, PlaceBid(bidder, amount)));
            && id in s.auctions && id in t.auctions
            && t.auctions[id].highestBidder.Some? && t.auctions[id].highestBid == amount
            && VaultOf(t.bank, id) - amount == VaultOf(s.bank, id) - s.auctions[id].highestBid >= 0
  {
    assert VaultBacks(CellOf(s, id), VaultOf(s.bank, id));
    BidFlow(s.bank, id, s.auctions[id], bidder, amount, BidVault(id));
  }

  lemma SettleEndsAuction(s: State, id: NameId)
    requires Step(s, OnName(id, Settle)).Some?
    ensures CellOf(Next(s, OnName(id, Settle)), id).auction.None?
  {
  }

  /** What every other instruction leaves of an auction. */
  predicate AuctionKept(before: Cell, after: Cell) {
    || after.auction == before.auction
    || (after.auction.None? && before.auction.Some? && before.auction.value.highestBidder.None?)
    || (before.auction.None? && after.auction.Some? && after.auction.value.highestBidder.None? && after.auction.value.highestBid == 0)
  }

  lemma PerformKeepsAuction(e: Env, id: NameId, c: Cell, op: NameOp)
    requires Perform(e, id, c, op).Some? && !op.PlaceBid? && !op.Settle?
    ensures AuctionKept(c, Perform(e, id, c, op).value.cell)
  {
  }

  lemma AuctionKeptBy(s: State, ix: Instruction, id: NameId)
    requires Step(s, ix).Some? && !UsesVault(ix, id)
    ensures AuctionKept(CellOf(s, id), CellOf(Next(s, ix), id))
  {
    if Touched(ix) != Some(id) {
      OtherCellsKept(s, ix, id);
    } else if ix.OnName? {
      PerformKeepsAuction(EnvOf(s), id, CellOf(s, id), ix.op);
      PutCellOther(s, id, Perform(EnvOf(s), id, CellOf(s, id), ix.op).value.cell, id);
    }
  }

  lemma VaultAfter(s: State, ix: Instruction, id: NameId)
    requires VaultInv(s)
    ensures VaultBacks(CellOf(Next(s, ix), id), VaultOf(Next(s, ix).bank, id))
  {
    assert VaultBacks(CellOf(s, id), VaultOf(s.bank, id));
    if Step(s, ix).Some? {
      if !UsesVault(ix, id) {
        VaultSpared(s, ix, id);
        AuctionKeptBy(s, ix, id);
      } else if ix.op.PlaceBid? {
        VaultAfterBid(s, id, ix.op.bidder, ix.op.amount);
      } else {
        SettleEndsAuction(s, id);
      }
    }
  }

  lemma StepKeepsVaults(s: State, ix: Instruction)
    requires VaultInv(s)
    ensures VaultInv(Next(s, ix))
  {
    ConfigKept(s, ix);
    forall id ensures VaultBacks(CellOf(Next(s, ix), id), VaultOf(Next(s, ix).bank, id)) {
      VaultAfter(s, ix, id);
    }
    RunConserves(s, [ix]);
    assert Run(s, [ix]) == Next(s, ix) by {
      assert [ix][1..] == [];
    }
  }

  /** In every reachable state each auction's vault holds at least its highest bid. */
  lemma {:induction false} RunKeepsVaults(s: State, ixs: seq<Instruction>)
    requires VaultInv(s)
    ensures VaultInv(Run(s, ixs))
    decreases |ixs|
  {
    if ixs != [] {
      StepKeepsVaults(s, ixs[0]);
      RunKeepsVaults(Next(s, ixs[0]), ixs[1..]);
    }
  }

  lemma InitialVaults(s: State)
    requires Initial(s)
    ensures VaultInv(s)
  {
  }

  // ----- every wallet's books

  ghost function Standings(auctions: map<NameId, Auction>, w: Pubkey): map<NameId, int> {
    map id | id in auctions :: Standing(Some(auctions[id]), w)
  }

  /** A wallet's `$SOLANS` plus all its standing bids, over any number of auctions at once. */
  ghost function Worth(s: State, w: Pubkey): int {
    Get(s.bank.solans, Wallet(w)) + Sum(Standings(s.auctions, w))
  }

  lemma StandingsPut(auctions: map<NameId, Auction>, id: NameId, a: Option<Auction>, w: Pubkey)
    ensures Sum(Standings(Put(auctions, id, a), w))
            == Sum(Standings(auctions, w)) - Standing(Lookup(auctions, id), w) + Standing(a, w)
  {
    var before := Standings(auctions, w);
    match a
    case Some(x) =>
      assert Standings(auctions[id := x], w) == before[id := Standing(a, w)];
      SumSet(before, id, Standing(a, w));
    case None =>
      assert Standings(auctions - {id}, w) == before - {id};
      if id in auctions {
        SumRemove(before, id);
      } else {
        assert before - {id} == before;
      }
  }

  /** Only the touched name's auction can change. */
  lemma AuctionsAfter(s: State, ix: Instruction)
    requires Step(s, ix).Some?
    ensures Next(s, ix).auctions == if ix.OnName? then Put(s.auctions, ix.id, Lookup(Next(s, ix).auctions, ix.id)) else s.auctions
  {
  }

  lemma StandingSumAfter(s: State, ix: Instruction, w: Pubkey)
    requires Step(s, ix).Some? && ix.OnName?
    ensures Sum(Standings(Next(s, ix).auctions, w))
            == Sum(Standings(s.auctions, w)) - Standing(CellOf(s, ix.id).auction, w) + Standing(CellOf(Next(s, ix), ix.id).auction, w)
  {
    AuctionsAfter(s, ix);
    StandingsPut(s.auctions, ix.id, Lookup(Next(s, ix).auctions, ix.id), w);
  }

  /** A bid leaves every wallet's worth alone: the outbid wallet is refunded, the bidder's tokens become its standing bid. */
  lemma BidKeepsWorth(s: State, id: NameId, bidder: Pubkey, amount: U64, w: Pubkey)
    requires VaultInv(s) && Step(s, OnName(id, PlaceBid(bidder, amount))).Some?
    ensures Worth(Next(s, OnName(id, PlaceBid(bidder, amount))), w) == Worth(s, w)
    ensures Next(s, OnName(id, PlaceBid(bidder, amount))).bank.supply == s.bank.supply
  {
    assert VaultBacks(CellOf(s, id), VaultOf(s.bank, id));
    StandingSumAfter(s, OnName(id, PlaceBid(bidder, amount)), w);
    BidFlow(s.bank, id, s.auctions[id], bidder, amount, Wallet(w));
  }

  /** What settling auction `a` does to wallet `w`: the winner pays its bid, the seller gets it less the fee. */
  function SettlementFlow(c: Config, a: Auction, w: Pubkey): int {
    match a.highestBidder
    case Some(winner) =>
      (if w == a.seller then a.highestBid - SaleFee(c, a.highestBid) else 0) - (if w == winner then a.highestBid else 0)
    case None => 0
  }

  lemma SettleMovesWorth(s: State, id: NameId, w: Pubkey)
    requires VaultInv(s) && Step(s, OnName(id, Settle)).Some?
    ensures id in s.auctions
    ensures var a := s.auctions[id];
            && Worth(Next(s, OnName(id, Settle)), w) == Worth(s, w) + SettlementFlow(s.config, a, w)
            && Next(s, OnName(id, Settle)).bank.supply
               == s.bank.supply - (if a.highestBidder.Some? then SaleFee(s.config, a.highestBid) else 0)
  {
    assert VaultBacks(CellOf(s, id), VaultOf(s.bank, id));
    StandingSumAfter(s, OnName(id, Settle), w);
    SettleFlow(s.config, s.bank, id, s.auctions[id], Wallet(w));
  }

  /** Every other instruction moves a wallet's worth only by what it pays that wallet directly. */
  lemma OtherKeepsStandings(s: State, ix: Instruction, w: Pubkey)
    requires Step(s, ix).Some? && !(ix.OnName? && (ix.op.PlaceBid? || ix.op.Settle?))
    requires forall id :: VaultBacks(CellOf(s, id), VaultOf(s.bank, id))
    ensures Sum(Standings(Next(s, ix).auctions, w)) == Sum(Standings(s.auctions, w))
  {
    if ix.OnName? {
      AuctionKeptBy(s, ix, ix.id);
      assert VaultBacks(CellOf(s, ix.id), VaultOf(s.bank, ix.id));
      StandingSumAfter(s, ix, w);
    } else {
      AuctionsAfter(s, ix);
    }
  }

  /** The `$SOLANS` an instruction brings wallet `w`: nothing for a bid, the settlement's flow, or a direct payment. */
  function FlowTo(s: State, ix: Instruction, w: Pubkey): int {
    if Step(s, ix).None? then 0
    else if ix.OnName? && ix.op.PlaceBid? then 0
    else if ix.OnName? && ix.op.Settle? && ix.id in s.auctions then SettlementFlow(s.config, s.auctions[ix.id], w)
    else Get(Next(s, ix).bank.solans, Wallet(w)) - Get(s.bank.solans, Wallet(w))
  }

  lemma StepMovesWorth(s: State, ix: Instruction, w: Pubkey)
    requires VaultInv(s)
    ensures Worth(Next(s, ix), w) == Worth(s, w) + FlowTo(s, ix, w)
  {
    if Step(s, ix).Some? {
      if ix.OnName? && ix.op.PlaceBid? {
        BidKeepsWorth(s, ix.id, ix.op.bidder, ix.op.amount, w);
      } else if ix.OnName? && ix.op.Settle? {
        SettleMovesWorth(s, ix.id, w);
      } else {
        OtherKeepsStandings(s, ix, w);
      }
    }
  }

  function TotalFlowTo(s: State, ixs: seq<Instruction>, w: Pubkey): int
    decreases |ixs|
  {
    if ixs == [] then 0 else FlowTo(s, ixs[0], w) + TotalFlowTo(Next(s, ixs[0]), ixs[1..], w)
  }

  /**
   * Over a whole run with any number of interleaved auctions, a wallet's balance plus its standing
   * bids changes only by settlements it sold or won and by payments outside the auctions: being
   * outbid, however often, nets to zero.
   */
  lemma {:induction false} AuctionLedger(s: State, ixs: seq<Instruction>, w: Pubkey)
    requires VaultInv(s)
    ensures Worth(Run(s, ixs), w) == Worth(s, w) + TotalFlowTo(s, ixs, w)
    decreases |ixs|
  {
    if ixs != [] {
      StepMovesWorth(s, ixs[0], w);
      StepKeepsVaults(s, ixs[0]);
      AuctionLedger(Next(s, ixs[0]), ixs[1..], w);
    }
  }

  // ----- progress of one auction

  predicate BidOn(ix: Instruction, id: NameId) {
    ix.OnName? && ix.id == id && ix.op.PlaceBid?
  }

  predicate Ends(ix: Instruction, id: NameId) {
    ix.OnName? && ix.id == id && (ix.op.Settle? || ix.op.CallOff?)
  }

  /** The auction on `id` is neither settled nor called off during the run. */
  predicate Live(s: State, ixs: seq<Instruction>, id: NameId)
    decreases |ixs|
  {
    ixs == [] || (!(Ends(ixs[0], id) && Step(s, ixs[0]).Some?) && Live(Next(s, ixs[0]), ixs[1..], id))
  }

  /** The clock readings of the accepted bids, in order. */
  function BidTimes(s: State, ixs: seq<Instruction>, id: NameId): seq<int>
    decreases |ixs|
  {
    if ixs == [] then []
    else (if BidOn(ixs[0], id) && Step(s, ixs[0]).Some? then [s.now] else []) + BidTimes(Next(s, ixs[0]), ixs[1..], id)
  }

  /** One accepted bid: over the minimum, and the close is pushed out to at least five minutes from now. */
  lemma BidAdvances(s: State, id: NameId, ix: Instruction)
    requires BidOn(ix, id) && Step(s, ix).Some?
    ensures id in s.auctions && id in Next(s, ix).auctions
    ensures var a, b := s.auctions[id], Next(s, ix).auctions[id];
            && b.seller == a.seller && b.reserve == a.reserve && b.minIncrement == a.minIncrement
            && b.highestBidder.Some? && b.highestBid >= MinimumBid(a)
            && s.now < a.endTime && b.endTime == Max(a.endTime, s.now + AUCTION_EXTENSION)
            && Next(s, ix).now == s.now
  {
  }

  lemma PerformSparesAuction(e: Env, id: NameId, c: Cell, op: NameOp)
    requires Perform(e, id, c, op).Some? && c.auction.Some? && !op.PlaceBid? && !op.Settle? && !op.CallOff?
    ensures Perform(e, id, c, op).value.cell.auction == c.auction
  {
  }

  lemma OthersSpareAuction(s: State, ix: Instruction, id: NameId)
    requires id in s.auctions && !(BidOn(ix, id) && Step(s, ix).Some?) && !(Ends(ix, id) && Step(s, ix).Some?)
    ensures id in Next(s, ix).auctions && Next(s, ix).auctions[id] == s.auctions[id]
  {
    if Touched(ix) != Some(id) {
      OtherCellsKept(s, ix, id);
      assert CellOf(Next(s, ix), id).auction == CellOf(s, id).auction;
    } else if ix.OnName? && Step(s, ix).Some? {
      PerformSparesAuction(EnvOf(s), id, CellOf(s, id), ix.op);
      PutCellOther(s, id, Perform(EnvOf(s), id, CellOf(s, id), ix.op).value.cell, id);
      assert CellOf(Next(s, ix), id).auction == CellOf(s, id).auction;
    }
  }

  /** How far an auction has come after accepted bids at the given times. */
  predicate Advanced(a: Auction, b: Auction, times: seq<int>) {
    && b.seller == a.seller && b.reserve == a.reserve && b.minIncrement == a.minIncrement
    && (if times == [] then b == a else
          && b.highestBidder.Some?
          && b.highestBid >= MinimumBid(a) + (|times| - 1) * a.minIncrement
          && b.endTime == Max(a.endTime, times[|times| - 1] + AUCTION_EXTENSION))
  }

  lemma AdvancedOneMore(a: Auction, m: Auction, b: Auction, now: int, times: seq<int>)
    requires m.seller == a.seller && m.reserve == a.reserve && m.minIncrement == a.minIncrement
    requires m.highestBidder.Some? && m.highestBid >= MinimumBid(a) && m.endTime == Max(a.endTime, now + AUCTION_EXTENSION)
    requires Advanced(m, b, times) && (times != [] ==> now <= times[|times| - 1])
    ensures Advanced(a, b, [now] + times)
  {
    var all := [now] + times;
    if times != [] {
      assert all[|all| - 1] == times[|times| - 1];
      Distribute(a.minIncrement, |times| - 1, 1);
    }
  }

  lemma {:induction false} TimesFromNow(s: State, ixs: seq<Instruction>, id: NameId)
    ensures forall i :: 0 <= i < |BidTimes(s, ixs, id)| ==> s.now <= BidTimes(s, ixs, id)[i]
    decreases |ixs|
  {
    if ixs != [] {
      ClockForward(s, ixs[0]);
      TimesFromNow(Next(s, ixs[0]), ixs[1..], id);
    }
  }

  /**
   * While an auction stays open, its n-th accepted bid is at least the first minimum plus n - 1
   * increments, and it closes exactly at its original end or five minutes after the last bid,
   * whichever is later.
   */
  lemma {:induction false} AuctionProgress(s: State, ixs: seq<Instruction>, id: NameId)
    requires id in s.auctions && Live(s, ixs, id)
    ensures id in Run(s, ixs).auctions
    ensures Advanced(s.auctions[id], Run(s, ixs).auctions[id], BidTimes(s, ixs, id))
    decreases |ixs|
  {
    if ixs != [] {
      var t, rest := Next(s, ixs[0]), ixs[1..];
      if BidOn(ixs[0], id) && Step(s, ixs[0]).Some? {
        BidAdvances(s, id, ixs[0]);
        AuctionProgress(t, rest, id);
        TimesFromNow(t, rest, id);
        AdvancedOneMore(s.auctions[id], t.auctions[id], Run(t, rest).auctions[id], s.now, BidTimes(t, rest, id));
      } else {
        OthersSpareAuction(s, ixs[0], id);
        AuctionProgress(t, rest, id);
        assert [] + BidTimes(t, rest, id) == BidTimes(t, rest, id);
      }
    }
  }

  lemma LastBidBacked(s: State, ixs: seq<Instruction>, id: NameId)
    requires VaultInv(s) && id in Run(s, ixs).auctions
    ensures Run(s, ixs).auctions[id].highestBid <= s.bank.supply
  {
    RunKeepsVaults(s, ixs);
    RunConserves(s, ixs);
    HighestBidBacked(Run(s, ixs), id);
  }

  /** What `bids` bids have to raise a first one by. */
  function TotalRaise(increment: nat, bids: nat): int {
    increment * (bids - 1)
  }

  lemma RaisesWithin(a: Auction, b: Auction, times: seq<int>)
    requires Advanced(a, b, times)
    ensures TotalRaise(a.minIncrement, |times|) <= b.highestBid
  {
  }

  /** With a positive increment the number of bids is bounded by the token supply. */
  lemma BidsBounded(s: State, ixs: seq<Instruction>, id: NameId)
    requires VaultInv(s) && id in s.auctions && Live(s, ixs, id)
    ensures TotalRaise(s.auctions[id].minIncrement, |BidTimes(s, ixs, id)|) <= s.bank.supply
  {
    var t, times := Run(s, ixs), BidTimes(s, ixs, id);
    AuctionProgress(s, ixs, id);
    LastBidBacked(s, ixs, id);
    RaisesWithin(s.auctions[id], t.auctions[id], times);
  }

  lemma HighestBidBacked(t: State, id: NameId)
    requires VaultInv(t) && id in t.auctions
    ensures t.auctions[id].highestBid <= t.bank.supply
  {
    assert VaultBacks(CellOf(t, id), VaultOf(t.bank, id));
    BalanceWithinTotal(t.bank.solans, BidVault(id));
  }

  lemma BalanceWithinTotal(b: Balances, a: Account)
    ensures Get(b, a) <= Total(b)
  {
    if a in b {
      SumDominates(b, a);
    } else {
      SumNonNegative(b);
    }
  }

  lemma BidsWhileOpen(s: State, id: NameId, bidder: Pubkey, amount: U64)
    requires Step(s, OnName(id, PlaceBid(bidder, amount))).Some?
    ensures id in s.auctions && s.now < s.auctions[id].endTime
  {
  }

  lemma SettlesWhenOver(s: State, id: NameId)
    requires Step(s, OnName(id, Settle)).Some?
    ensures id in s.auctions && s.now >= s.auctions[id].endTime
  {
  }

  /** A bid and a settlement are never both possible. */
  lemma BidXorSettle(s: State, id: NameId, bidder: Pubkey, amount: U64)
    ensures Step(s, OnName(id, PlaceBid(bidder, amount))).None? || Step(s, OnName(id, Settle)).None?
  {
    if Step(s, OnName(id, PlaceBid(bidder, amount))).Some? && Step(s, OnName(id, Settle)).Some? {
      BidsWhileOpen(s, id, bidder, amount);
      SettlesWhenOver(s, id);
    }
  }

  // ----- what else is in the vault

  /** What an auction's vault holds beyond the standing bid. */
  function Surplus(s: State, id: NameId): int {
    VaultOf(s.bank, id) - if id in s.auctions then s.auctions[id].highestBid else 0
  }

  /** No handler changes the surplus of an open auction; only payments from outside do. */
  lemma SurplusStep(s: State, ix: Instruction, id: NameId)
    requires VaultInv(s) && id in s.auctions && Step(s, ix).Some? && !Ends(ix, id)
    ensures id in Next(s, ix).auctions && Surplus(Next(s, ix), id) == Surplus(s, id) + Donation(ix, id)
  {
    if BidOn(ix, id) {
      VaultAfterBid(s, id, ix.op.bidder, ix.op.amount);
    } else {
      OthersSpareAuction(s, ix, id);
      VaultSpared(s, ix, id);
    }
  }

  function TotalDonated(s: State, ixs: seq<Instruction>, id: NameId): nat
    decreases |ixs|
  {
    if ixs == [] then 0
    else (if Step(s, ixs[0]).Some? then Donation(ixs[0], id) else 0) + TotalDonated(Next(s, ixs[0]), ixs[1..], id)
  }

  lemma {:induction false} SurplusBooks(s: State, ixs: seq<Instruction>, id: NameId)
    requires VaultInv(s) && id in s.auctions && Live(s, ixs, id)
    ensures id in Run(s, ixs).auctions && Surplus(Run(s, ixs), id) == Surplus(s, id) + TotalDonated(s, ixs, id)
    decreases |ixs|
  {
    if ixs != [] {
      if Step(s, ixs[0]).Some? {
        SurplusStep(s, ixs[0], id);
      }
      StepKeepsVaults(s, ixs[0]);
      SurplusBooks(Next(s, ixs[0]), ixs[1..], id);
    }
  }

  /** An auction opens over an empty vault, which it creates. */
  lemma OpensEmpty(s: State, id: NameId, op: NameOp)
    requires op.OpenAuction? && Step(s, OnName(id, op)).Some?
    ensures var t := Next(s, OnName(id, op));
            && BidVault(id) !in s.bank.solans && id in t.auctions
            && VaultOf(t.bank, id) == 0 == t.auctions[id].highestBid
  {
    OneMove(s.bank, OpenVault(BidVault(id)));
  }

  /** From its opening on, while it is open, an auction's vault holds the highest bid and what outsiders paid into it. */
  lemma VaultHoldsBidAndDonations(s: State, id: NameId, op: NameOp, ixs: seq<Instruction>)
    requires VaultInv(s) && op.OpenAuction? && Step(s, OnName(id, op)).Some?
    requires Live(Next(s, OnName(id, op)), ixs, id)
    ensures var t := Next(s, OnName(id, op));
            && id in Run(t, ixs).auctions
            && VaultOf(Run(t, ixs).bank, id) == Run(t, ixs).auctions[id].highestBid + TotalDonated(t, ixs, id)
  {
    OpensEmpty(s, id, op);
    StepKeepsVaults(s, OnName(id, op));
    SurplusBooks(Next(s, OnName(id, op)), ixs, id);
  }

  // ----- ending an auction

  lemma SettlesOnlyExact(s: State, id: NameId)
    requires VaultInv(s) && Step(s, OnName(id, Settle)).Some?
    ensures id in s.auctions && id in s.records && s.now >= s.auctions[id].endTime && Surplus(s, id) == 0
  {
    assert VaultBacks(CellOf(s, id), VaultOf(s.bank, id));
    SettleFlow(s.config, s.bank, id, s.auctions[id], BidVault(id));
  }

  /** An auction on an existing name can be settled exactly when its time has come and its vault holds the bid and nothing else. */
  lemma SettlementExact(s: State, id: NameId)
    requires VaultInv(s) && id in s.auctions
    ensures Step(s, OnName(id, Settle)).Some? <==> id in s.records && s.now >= s.auctions[id].endTime && Surplus(s, id) == 0
  {
    if Step(s, OnName(id, Settle)).Some? {
      SettlesOnlyExact(s, id);
    }
    if id in s.records && s.now >= s.auctions[id].endTime && Surplus(s, id) == 0 {
      assert VaultBacks(CellOf(s, id), VaultOf(s.bank, id));
      VaultCoversSettlement(s.config, s.bank, id, s.auctions[id]);
    }
  }

  lemma VaultCoversSettlement(c: Config, bank: Bank, id: NameId, a: Auction)
    requires ValidConfig(c) && VaultOf(bank, id) == a.highestBid && (a.highestBidder.None? ==> a.highestBid == 0)
    requires Total(bank.solans) == bank.supply
    ensures MakeMoves(bank, SettleMoves(c, id, a)).Some?
  {
    var close := CloseVault(BidVault(id));
    SaleFeeBound(c, a.highestBid);
    match a.highestBidder
    case Some(_) =>
      var fee := SaleFee(c, a.highestBid);
      var pay := PaySolans(BidVault(id), Wallet(a.seller), a.highestBid - fee);
      var burn := BurnSolans(BidVault(id), fee);
      BalanceWithinTotal(bank.solans, BidVault(id));
      ThreeMoves(bank, pay, burn, close);
      assert SettleMoves(c, id, a) == [pay, burn] + [close];
    case None =>
      assert SettleMoves(c, id, a) == [close];
      OneMove(bank, close);
  }

  /** The seller can call an auction off exactly while it has no bid and nobody paid into its vault. */
  lemma CallOffExact(s: State, id: NameId, signer: Pubkey)
    requires VaultInv(s) && id in s.auctions
    ensures Step(s, OnName(id, CallOff(signer))).Some?
            <==> id in s.records && s.auctions[id].seller == signer && s.auctions[id].highestBidder.None? && Surplus(s, id) == 0
  {
    assert VaultBacks(CellOf(s, id), VaultOf(s.bank, id));
    OneMove(s.bank, CloseVault(BidVault(id)));
  }

  lemma EndsOnlyExact(s: State, ix: Instruction, id: NameId)
    requires VaultInv(s) && id in s.auctions && Ends(ix, id) && Step(s, ix).Some?
    ensures Surplus(s, id) == 0
  {
    if ix.op.Settle? {
      SettlementExact(s, id);
    } else {
      CallOffExact(s, id, ix.op.signer);
    }
  }

  /** One token paid into an open auction's vault from outside: in every later state it can be neither settled nor called off. */
  lemma {:induction false} DonationBlocks(s: State, ixs: seq<Instruction>, id: NameId)
    requires VaultInv(s) && id in s.auctions && Surplus(s, id) > 0
    ensures var t := Run(s, ixs);
            && id in t.auctions && Surplus(t, id) >= Surplus(s, id)
            && Step(t, OnName(id, Settle)).None? && forall signer :: Step(t, OnName(id, CallOff(signer))).None?
    decreases |ixs|
  {
    if ixs == [] {
      SettlementExact(s, id);
      forall signer ensures Step(s, OnName(id, CallOff(signer))).None? {
        CallOffExact(s, id, signer);
      }
    } else {
      if Step(s, ixs[0]).Some? {
        if Ends(ixs[0], id) {
          EndsOnlyExact(s, ixs[0], id);
        }
        SurplusStep(s, ixs[0], id);
      }
      StepKeepsVaults(s, ixs[0]);
      DonationBlocks(Next(s, ixs[0]), ixs[1..], id);
    }
  }

  /** An auction that runs to its end can then be settled exactly when nobody paid into its vault meanwhile. */
  lemma SettlesUnlessDonated(s: State, id: NameId, op: NameOp, ixs: seq<Instruction>)
    requires VaultInv(s) && op.OpenAuction? && Step(s, OnName(id, op)).Some?
    requires Live(Next(s, OnName(id, op)), ixs, id)
    ensures var t := Run(Next(s, OnName(id, op)), ixs);
            && id in t.auctions
            && (Step(t, OnName(id, Settle)).Some?
                <==> id in t.records && t.now >= t.auctions[id].endTime && TotalDonated(Next(s, OnName(id, op)), ixs, id) == 0)
  {
    var first := Next(s, OnName(id, op));
    VaultHoldsBidAndDonations(s, id, op, ixs);
    StepKeepsVaults(s, OnName(id, op));
    RunKeepsVaults(first, ixs);
    SettlementExact(Run(first, ixs), id);
  }
}
