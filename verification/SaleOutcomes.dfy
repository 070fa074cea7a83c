/** What listings and offers do: the terms they store, who pays and receives how much, and exactly when they succeed. */
module SaleOutcomes {
  import opened Prelude
  import opened Naming
  import opened Ledger
  import opened Economics
  import opened Registry
  import opened Payments
  import opened RecordOutcomes

  /** The marketplace fee on `price`, rounded down. */
  function FeeOn(c: Config, price: nat): nat {
    price * c.marketplaceFeeBps / 10_000
  }

  lemma FeeWithin(c: Config, price: nat)
    requires ValidConfig(c)
    ensures SaleFee(c, price) == FeeOn(c, price) <= price
  {
    SaleFeeBound(c, price);
  }

  // ----- listings

  lemma CellStep(s: State, id: NameId, op: NameOp, effect: Effect)
    requires Perform(EnvOf(s), id, CellOf(s, id), op) == Some(effect) && effect.moves == []
    ensures Step(s, OnName(id, op)) == Some(PutCell(s, id, effect.cell))
  {
    OnNameIs(s, id, op, Some(effect));
    assert MakeMoves(s.bank, []) == Some(s.bank);
  }

  /** A listing stores its seller, price and expiry, and freezes the name. */
  lemma OpenListingIs(s: State, id: NameId, signer: Pubkey, price: U64, duration: int)
    ensures Step(s, OnName(id, OpenListing(signer, price, duration)))
            == if FreeOwner(s, id, signer) && id !in s.listings && !s.records[id].transferLocked
                  && 0 < duration && s.now + duration <= I64_MAX
               then Some(s.(records := s.records[id := s.records[id].(listed := true)],
                            listings := s.listings[id := Listing(signer, price, s.now + duration)])) else None
  {
    var op := OpenListing(signer, price, duration);
    var effect := Perform(EnvOf(s), id, CellOf(s, id), op);
    PutLookup(s.auctions, id);
    if effect.Some? {
      CellStep(s, id, op, effect.value);
    } else {
      RefusedStep(s, id, op);
    }
  }

  /** Repricing changes price and expiry of the seller's own listing. */
  lemma RepriceIs(s: State, id: NameId, signer: Pubkey, price: U64, duration: int)
    ensures Step(s, OnName(id, Reprice(signer, price, duration)))
            == if id in s.listings && s.listings[id].seller == signer && 0 < duration && s.now + duration <= I64_MAX
               then Some(s.(listings := s.listings[id := Listing(signer, price, s.now + duration)])) else None
  {
    var op := Reprice(signer, price, duration);
    var effect := Perform(EnvOf(s), id, CellOf(s, id), op);
    PutLookup(s.records, id);
    PutLookup(s.auctions, id);
    if effect.Some? {
      CellStep(s, id, op, effect.value);
    } else {
      RefusedStep(s, id, op);
    }
  }

  /** The seller any time, anyone after expiry: the listing closes and the name is free again. */
  lemma CloseListingIs(s: State, id: NameId, signer: Pubkey)
    ensures Step(s, OnName(id, CloseListing(signer)))
            == if id in s.records && id in s.listings && (signer == s.listings[id].seller || s.listings[id].expiresAt < s.now)
               then Some(s.(records := s.records[id := s.records[id].(listed := false)], listings := s.listings - {id})) else None
  {
    var op := CloseListing(signer);
    var effect := Perform(EnvOf(s), id, CellOf(s, id), op);
    PutLookup(s.auctions, id);
    if effect.Some? {
      CellStep(s, id, op, effect.value);
    } else {
      RefusedStep(s, id, op);
    }
  }

  // ----- lamport flows

  /** Every account's lamports change by `flow`, and nothing else in the bank does. */
  ghost predicate LamportsFlow(before: Bank, after: Bank, flow: Account -> int) {
    && after == before.(lamports := after.lamports)
    && forall a :: Get(after.lamports, a) == Get(before.lamports, a) + flow(a)
  }

  lemma PayFlow(bank: Bank, from: Account, to: Account, amount: nat)
    ensures MakeMove(bank, PayLamports(from, to, amount)).Some? <==> amount <= Get(bank.lamports, from)
    ensures MakeMove(bank, PayLamports(from, to, amount)).Some? ==>
              LamportsFlow(bank, MakeMove(bank, PayLamports(from, to, amount)).value, a => Part(a, to, amount) - Part(a, from, amount))
  {
  }

  lemma FlowsAdd(a: Bank, b: Bank, c: Bank, f: Account -> int, g: Account -> int)
    requires LamportsFlow(a, b, f) && LamportsFlow(b, c, g)
    ensures LamportsFlow(a, c, x => f(x) + g(x))
  {
    forall x ensures Get(c.lamports, x) == Get(a.lamports, x) + (f(x) + g(x)) {
      assert Get(b.lamports, x) == Get(a.lamports, x) + f(x);
    }
  }

  // ----- buying

  /** What account `a` gets, and pays, of a sale at `price`. */
  function SaleFlow(c: Config, buyer: Pubkey, seller: Pubkey, price: nat, a: Account): int {
    Part(a, Wallet(seller), SatSub(price, FeeOn(c, price))) + Part(a, Wallet(c.solTreasury), FeeOn(c, price)) - Part(a, Wallet(buyer), price)
  }

  /** One payer, two payees. */
  function TwoWay(from: Account, to: Account, net: nat, other: Account, fee: nat, a: Account): int {
    Part(a, to, net) + Part(a, other, fee) - Part(a, from, net + fee)
  }

  lemma TwoPayments(bank: Bank, from: Account, to: Account, net: nat, other: Account, fee: nat)
    requires from != to
    ensures var after := AndThen(MakeMove(bank, PayLamports(from, to, net)), PayLamports(from, other, fee));
            && (after.Some? <==> net + fee <= Get(bank.lamports, from))
            && (after.Some? ==> LamportsFlow(bank, after.value, a => TwoWay(from, to, net, other, fee, a)))
  {
    PayFlow(bank, from, to, net);
    var m := PayLamports(from, to, net);
    if MakeMove(bank, m).Some? {
      var half := MakeMove(bank, m).value;
      assert Get(half.lamports, from) == Get(bank.lamports, from) - net;
      PayFlow(half, from, other, fee);
      if MakeMove(half, PayLamports(from, other, fee)).Some? {
        FlowsAdd(bank, half, MakeMove(half, PayLamports(from, other, fee)).value,
                 a => Part(a, to, net) - Part(a, from, net), a => Part(a, other, fee) - Part(a, from, fee));
      }
    }
  }

  lemma SalePaid(c: Config, bank: Bank, buyer: Pubkey, seller: Pubkey, price: nat)
    requires ValidConfig(c) && buyer != seller
    ensures MakeMoves(bank, SaleMoves(c, buyer, seller, price)).Some? <==> price <= Get(bank.lamports, Wallet(buyer))
    ensures MakeMoves(bank, SaleMoves(c, buyer, seller, price)).Some? ==>
              LamportsFlow(bank, MakeMoves(bank, SaleMoves(c, buyer, seller, price)).value, a => SaleFlow(c, buyer, seller, price, a))
  {
    FeeWithin(c, price);
    SalePaidAs(bank, c, buyer, seller, price, FeeOn(c, price));
  }

  lemma SaleMovesAre(bank: Bank, c: Config, buyer: Pubkey, seller: Pubkey, price: nat, fee: nat)
    requires fee == SaleFee(c, price) <= price
    ensures MakeMoves(bank, SaleMoves(c, buyer, seller, price))
            == AndThen(MakeMove(bank, PayLamports(Wallet(buyer), Wallet(seller), price - fee)), PayLamports(Wallet(buyer), Wallet(c.solTreasury), fee))
  {
    FewMoves(bank, PayLamports(Wallet(buyer), Wallet(seller), price - fee), PayLamports(Wallet(buyer), Wallet(c.solTreasury), fee));
  }

  lemma SalePaidAs(bank: Bank, c: Config, buyer: Pubkey, seller: Pubkey, price: nat, fee: nat)
    requires fee == SaleFee(c, price) == FeeOn(c, price) <= price && buyer != seller
    ensures var after := MakeMoves(bank, SaleMoves(c, buyer, seller, price));
            && (after.Some? <==> price <= Get(bank.lamports, Wallet(buyer)))
            && (after.Some? ==> LamportsFlow(bank, after.value, a => SaleFlow(c, buyer, seller, price, a)))
  {
    SaleMovesAre(bank, c, buyer, seller, price, fee);
    TwoPayments(bank, Wallet(buyer), Wallet(seller), price - fee, Wallet(c.solTreasury), fee);
    forall a ensures TwoWay(Wallet(buyer), Wallet(seller), price - fee, Wallet(c.solTreasury), fee, a) == SaleFlow(c, buyer, seller, price, a) {
    }
  }

  /** The listing is good: the name is on sale by its owner, at the price the buyer expects, and has not expired. */
  predicate Buyable(s: State, id: NameId, buyer: Pubkey, expected: nat) {
    && id in s.records && id in s.listings
    && s.records[id].listed && s.records[id].owner == s.listings[id].seller != buyer
    && s.now <= s.listings[id].expiresAt && s.listings[id].price == expected
  }

  /**
   * A purchase succeeds exactly when the listing is good and the buyer holds the price. The buyer
   * pays it, the seller gets it less the fee, the treasury the fee, and the name changes hands clean.
   */
  lemma BuyIs(s: State, id: NameId, buyer: Pubkey, expected: U64)
    requires ValidConfig(s.config)
    ensures var ix := OnName(id, Buy(buyer, expected));
            && (Step(s, ix).Some? <==> Buyable(s, id, buyer, expected) && expected <= Get(s.bank.lamports, Wallet(buyer)))
            && (Step(s, ix).Some? ==>
                  && Next(s, ix) == s.(records := s.records[id := s.records[id].(owner := buyer, controller := None, reverseSet := false, listed := false)],
                                       listings := s.listings - {id}, bank := Next(s, ix).bank)
                  && LamportsFlow(s.bank, Next(s, ix).bank, a => SaleFlow(s.config, buyer, s.listings[id].seller, expected, a)))
  {
    var op := Buy(buyer, expected);
    if Buyable(s, id, buyer, expected) {
      var r, l := s.records[id], s.listings[id];
      var cell := CellOf(s, id).(record := Some(r.(owner := buyer, controller := None, reverseSet := false, listed := false)), listing := None);
      var effect := Effect(cell, SaleMoves(s.config, buyer, l.seller, l.price));
      assert Perform(EnvOf(s), id, CellOf(s, id), op) == Some(effect);
      OnNameIs(s, id, op, Some(effect));
      PutLookup(s.auctions, id);
      SalePaid(s.config, s.bank, buyer, l.seller, l.price);
    } else {
      RefusedStep(s, id, op);
    }
  }

  // ----- offers

  /** An offer stores amount and expiry, and its amount moves from the buyer into its escrow. */
  lemma MakeOfferIs(s: State, buyer: Pubkey, id: NameId, amount: U64, duration: int)
    ensures var ix := MakeOffer(buyer, id, amount, duration);
            && (Step(s, ix).Some? <==> id in s.records && (id, buyer) !in s.offers && 0 < duration && s.now + duration <= I64_MAX
                                       && amount <= Get(s.bank.lamports, Wallet(buyer)))
            && (Step(s, ix).Some? ==>
                  && Next(s, ix) == s.(offers := s.offers[(id, buyer) := Offer(amount, s.now + duration)], bank := Next(s, ix).bank)
                  && LamportsFlow(s.bank, Next(s, ix).bank, a => Part(a, OfferEscrow(id, buyer), amount) - Part(a, Wallet(buyer), amount)))
  {
    OneMove(s.bank, PayLamports(Wallet(buyer), OfferEscrow(id, buyer), amount));
    PayFlow(s.bank, Wallet(buyer), OfferEscrow(id, buyer), amount);
  }

  lemma CloseFlow(bank: Bank, from: Account, to: Account)
    ensures MakeMove(bank, CloseLamports(from, to)).Some?
    ensures var all := Get(bank.lamports, from);
            LamportsFlow(bank, MakeMove(bank, CloseLamports(from, to)).value, a => Part(a, to, all) - Part(a, from, all))
  {
    PayFlow(bank, from, to, Get(bank.lamports, from));
  }

  /** The buyer any time, the owner who presents the record, anyone after expiry: the whole escrow returns to the buyer. */
  lemma CancelOfferIs(s: State, signer: Pubkey, id: NameId, buyer: Pubkey, shown: Option<NameId>)
    ensures var ix, all := CancelOffer(signer, id, buyer, shown), Get(s.bank.lamports, OfferEscrow(id, buyer));
            && (Step(s, ix).Some?
                <==> && (id, buyer) in s.offers && (shown.None? || shown.value in s.records)
                     && (signer == buyer || (shown == Some(id) && s.records[id].owner == signer) || s.offers[(id, buyer)].expiresAt < s.now))
            && (Step(s, ix).Some? ==>
                  && Next(s, ix) == s.(offers := s.offers - {(id, buyer)}, bank := Next(s, ix).bank)
                  && LamportsFlow(s.bank, Next(s, ix).bank, a => Part(a, Wallet(buyer), all) - Part(a, OfferEscrow(id, buyer), all)))
  {
    OneMove(s.bank, CloseLamports(OfferEscrow(id, buyer), Wallet(buyer)));
    CloseFlow(s.bank, OfferEscrow(id, buyer), Wallet(buyer));
  }

  lemma DebitFlow(bank: Bank, from: Account, to: Account, amount: nat)
    requires from != to
    ensures MakeMove(bank, DebitLamports(from, to, amount)).Some?
            <==> amount == 0 || (amount <= Get(bank.lamports, from) && Get(bank.lamports, to) + amount <= U64_MAX)
    ensures MakeMove(bank, DebitLamports(from, to, amount)).Some? ==>
              && amount <= Get(bank.lamports, from)
              && LamportsFlow(bank, MakeMove(bank, DebitLamports(from, to, amount)).value, a => Part(a, to, amount) - Part(a, from, amount))
  {
  }

  /** What account `a` gets, and pays, when an offer is accepted; `all` is what the escrow holds. */
  function AcceptFlow(c: Config, id: NameId, owner: Pubkey, buyer: Pubkey, amount: nat, all: nat, a: Account): int {
    Part(a, Wallet(owner), SatSub(amount, FeeOn(c, amount))) + Part(a, Wallet(c.solTreasury), FeeOn(c, amount))
    + Part(a, Wallet(buyer), SatSub(all, amount)) - Part(a, OfferEscrow(id, buyer), all)
  }

  /** The credits to the owner and the treasury cannot overflow a u64. */
  predicate RoomFor(c: Config, bank: Bank, owner: Pubkey, amount: nat) {
    Get(bank.lamports, Wallet(owner)) + amount <= U64_MAX && Get(bank.lamports, Wallet(c.solTreasury)) + amount <= U64_MAX
  }

  lemma TwoDebits(bank: Bank, from: Account, to: Account, net: nat, other: Account, fee: nat)
    requires from != to && from != other
    ensures var after := AndThen(MakeMove(bank, DebitLamports(from, to, net)), DebitLamports(from, other, fee));
            && (after.Some? ==> net + fee <= Get(bank.lamports, from))
            && (net + fee <= Get(bank.lamports, from) && Get(bank.lamports, to) + net + fee <= U64_MAX && Get(bank.lamports, other) + net + fee <= U64_MAX
                ==> after.Some?)
            && (after.Some? ==> LamportsFlow(bank, after.value, a => TwoWay(from, to, net, other, fee, a)))
  {
    var m := DebitLamports(from, to, net);
    DebitFlow(bank, from, to, net);
    if MakeMove(bank, m).Some? {
      var half := MakeMove(bank, m).value;
      DebitFlow(half, from, other, fee);
      assert Get(half.lamports, from) == Get(bank.lamports, from) - net;
      assert Get(half.lamports, other) <= Get(bank.lamports, other) + net;
      if MakeMove(half, DebitLamports(from, other, fee)).Some? {
        FlowsAdd(bank, half, MakeMove(half, DebitLamports(from, other, fee)).value,
                 a => Part(a, to, net) - Part(a, from, net), a => Part(a, other, fee) - Part(a, from, fee));
      }
    }
  }

  lemma AcceptPaid(c: Config, bank: Bank, id: NameId, owner: Pubkey, buyer: Pubkey, amount: nat, all: nat)
    requires ValidConfig(c) && all == Get(bank.lamports, OfferEscrow(id, buyer))
    ensures MakeMoves(bank, AcceptMoves(c, id, owner, buyer, amount)).Some? ==> amount <= all
    ensures amount <= all && RoomFor(c, bank, owner, amount) ==> MakeMoves(bank, AcceptMoves(c, id, owner, buyer, amount)).Some?
    ensures MakeMoves(bank, AcceptMoves(c, id, owner, buyer, amount)).Some? ==>
              LamportsFlow(bank, MakeMoves(bank, AcceptMoves(c, id, owner, buyer, amount)).value,
                           a => AcceptFlow(c, id, owner, buyer, amount, all, a))
  {
    FeeWithin(c, amount);
    AcceptPaidAs(c, bank, id, owner, buyer, amount, all, FeeOn(c, amount));
  }

  /** What is left of the escrow after two debits returns to the buyer. */
  lemma DebitsThenClose(bank: Bank, half: Bank, escrow: Account, to: Account, net: nat, other: Account, fee: nat, back: Account, all: nat)
    requires all == Get(bank.lamports, escrow) && net + fee <= all && escrow != to && escrow != other
    requires LamportsFlow(bank, half, a => TwoWay(escrow, to, net, other, fee, a))
    ensures MakeMove(half, CloseLamports(escrow, back)).Some?
    ensures LamportsFlow(bank, MakeMove(half, CloseLamports(escrow, back)).value,
                         a => Part(a, to, net) + Part(a, other, fee) + Part(a, back, all - (net + fee)) - Part(a, escrow, all))
  {
    var rest := all - (net + fee);
    assert Get(half.lamports, escrow) == rest;
    CloseFlow(half, escrow, back);
    var after := MakeMove(half, CloseLamports(escrow, back)).value;
    forall a ensures Get(after.lamports, a)
                     == Get(bank.lamports, a) + (Part(a, to, net) + Part(a, other, fee) + Part(a, back, rest) - Part(a, escrow, all))
    {
      assert Get(half.lamports, a) == Get(bank.lamports, a) + TwoWay(escrow, to, net, other, fee, a);
      assert Get(after.lamports, a) == Get(half.lamports, a) + (Part(a, back, rest) - Part(a, escrow, rest));
    }
  }

  lemma AcceptMovesAre(c: Config, bank: Bank, id: NameId, owner: Pubkey, buyer: Pubkey, amount: nat, fee: nat)
    requires fee == SaleFee(c, amount) <= amount
    ensures var escrow := OfferEscrow(id, buyer);
            MakeMoves(bank, AcceptMoves(c, id, owner, buyer, amount))
            == AndThen(AndThen(MakeMove(bank, DebitLamports(escrow, Wallet(owner), amount - fee)), DebitLamports(escrow, Wallet(c.solTreasury), fee)),
                       CloseLamports(escrow, Wallet(buyer)))
  {
    var escrow := OfferEscrow(id, buyer);
    var m, n := DebitLamports(escrow, Wallet(owner), amount - fee), DebitLamports(escrow, Wallet(c.solTreasury), fee);
    ThreeMoves(bank, m, n, CloseLamports(escrow, Wallet(buyer)));
    assert AcceptMoves(c, id, owner, buyer, amount) == [m, n] + [CloseLamports(escrow, Wallet(buyer))];
  }

  lemma AcceptPaidAs(c: Config, bank: Bank, id: NameId, owner: Pubkey, buyer: Pubkey, amount: nat, all: nat, fee: nat)
    requires fee == SaleFee(c, amount) == FeeOn(c, amount) <= amount && all == Get(bank.lamports, OfferEscrow(id, buyer))
    ensures var after := MakeMoves(bank, AcceptMoves(c, id, owner, buyer, amount));
            && (after.Some? ==> amount <= all)
            && (amount <= all && RoomFor(c, bank, owner, amount) ==> after.Some?)
            && (after.Some? ==> LamportsFlow(bank, after.value, a => AcceptFlow(c, id, owner, buyer, amount, all, a)))
  {
    var escrow := OfferEscrow(id, buyer);
    AcceptMovesAre(c, bank, id, owner, buyer, amount, fee);
    TwoDebits(bank, escrow, Wallet(owner), amount - fee, Wallet(c.solTreasury), fee);
    var half := AndThen(MakeMove(bank, DebitLamports(escrow, Wallet(owner), amount - fee)), DebitLamports(escrow, Wallet(c.solTreasury), fee));
    if half.Some? {
      DebitsThenClose(bank, half.value, escrow, Wallet(owner), amount - fee, Wallet(c.solTreasury), fee, Wallet(buyer), all);
    }
  }

  /** The owner of a free name may accept an open offer of somebody else. */
  predicate Acceptable(s: State, signer: Pubkey, id: NameId, buyer: Pubkey) {
    FreeOwner(s, id, signer) && (id, buyer) in s.offers && s.now <= s.offers[(id, buyer)].expiresAt && buyer != signer
  }

  /**
   * An accepted offer pays the owner the amount less the fee and the treasury the fee, returns the
   * rest of the escrow to the buyer, and hands the name over clean. It fails only if the offer is
   * not acceptable, its escrow does not cover it, or a credit would overflow.
   */
  lemma AcceptOfferIs(s: State, signer: Pubkey, id: NameId, buyer: Pubkey)
    requires ValidConfig(s.config) && (id, buyer) in s.offers
    ensures var ix, all, amount := AcceptOffer(signer, id, buyer), Get(s.bank.lamports, OfferEscrow(id, buyer)), s.offers[(id, buyer)].amount;
            && (Step(s, ix).Some? ==> Acceptable(s, signer, id, buyer) && amount <= all)
            && (Acceptable(s, signer, id, buyer) && amount <= all && RoomFor(s.config, s.bank, signer, amount) ==> Step(s, ix).Some?)
            && (Step(s, ix).Some? ==>
                  && Next(s, ix) == s.(records := s.records[id := s.records[id].(owner := buyer, controller := None, reverseSet := false)],
                                       offers := s.offers - {(id, buyer)}, bank := Next(s, ix).bank)
                  && LamportsFlow(s.bank, Next(s, ix).bank, a => AcceptFlow(s.config, id, signer, buyer, amount, all, a)))
  {
    AcceptPaid(s.config, s.bank, id, signer, buyer, s.offers[(id, buyer)].amount, Get(s.bank.lamports, OfferEscrow(id, buyer)));
  }

  lemma NothingToAccept(s: State, signer: Pubkey, id: NameId, buyer: Pubkey)
    requires (id, buyer) !in s.offers
    ensures Step(s, AcceptOffer(signer, id, buyer)).None?
  {
  }
}
