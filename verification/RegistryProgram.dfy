/**
 * The registry's handlers as the program runs them: guards first, then payments and account
 * updates one after the other, in place; an error restores what the transaction had changed.
 * Every handler is proved against the model's function for it, and `Execute` against `Step`.
 */
module RegistryProgram {
  import opened Prelude
  import opened Naming
  import opened Ledger
  import opened Economics
  import opened RecordStore
  import opened Registry

  const MPL_NAME_MAX_LEN := 32

  class Program {
    var now: int
    var config: Config
    var records: map<NameId, NameRecord>
    var listings: map<NameId, Listing>
    var auctions: map<NameId, Auction>
    var offers: map<(NameId, Pubkey), Offer>
    var reverses: map<Pubkey, Reverse>
    var bank: Bank

    ghost function Accounts(): State
      reads this
    {
      State(now, config, records, listings, auctions, offers, reverses, bank)
    }

    ghost function Environment(): Env
      reads this
    {
      EnvOf(Accounts())
    }

    ghost function CellAt(id: NameId): Cell
      reads this
    {
      CellOf(Accounts(), id)
    }

    /** `ok` reports success; the accounts follow the model and are untouched by a revert. */
    twostate predicate Follows(ix: Instruction, ok: bool)
      reads this
    {
      && (ok <==> Step(old(Accounts()), ix).Some?)
      && Accounts() == Next(old(Accounts()), ix)
    }

    /** The accounts change as `effect` says, or not at all. */
    twostate predicate Applies(id: NameId, effect: Option<Effect>, ok: bool)
      reads this
    {
      && (ok <==> effect.Some? && MakeMoves(old(bank), effect.value.moves).Some?)
      && Accounts() == if ok then PutCell(old(Accounts()), id, effect.value.cell).(bank := MakeMoves(old(bank), effect.value.moves).value)
                       else old(Accounts())
    }

    /** The token balances took `m`, or nothing changed. */
    twostate predicate Moved(m: Move, ok: bool)
      reads this
    {
      && (ok <==> MakeMove(old(bank), m).Some?)
      && bank == if ok then MakeMove(old(bank), m).value else old(bank)
    }

    /** All of `moves` were paid, or nothing changed. */
    twostate predicate Charged(moves: Option<seq<Move>>, ok: bool)
      reads this
    {
      && (ok <==> moves.Some? && MakeMoves(old(bank), moves.value).Some?)
      && bank == if ok then MakeMoves(old(bank), moves.value).value else old(bank)
    }

    constructor (now: int, config: Config, bank: Bank)
      ensures Accounts() == State(now, config, map[], map[], map[], map[], map[], bank)
    {
      this.now, this.config, this.bank := now, config, bank;
      records, listings, auctions, offers, reverses := map[], map[], map[], map[], map[];
    }

    /** Storing a cell that differs only in one account stores that account alone. */
    lemma OnlyRecord(id: NameId)
      ensures Put(listings, id, Lookup(listings, id)) == listings
      ensures Put(auctions, id, Lookup(auctions, id)) == auctions
    {
      PutLookup(listings, id);
      PutLookup(auctions, id);
    }

    lemma OnlyListing(id: NameId)
      ensures Put(records, id, Lookup(records, id)) == records
      ensures Put(auctions, id, Lookup(auctions, id)) == auctions
    {
      PutLookup(records, id);
      PutLookup(auctions, id);
    }

    lemma OnlyAuction(id: NameId)
      ensures Put(records, id, Lookup(records, id)) == records
      ensures Put(listings, id, Lookup(listings, id)) == listings
    {
      PutLookup(records, id);
      PutLookup(listings, id);
    }

    // ----- payments

    method TransferTokens(from: Account, to: Account, amount: nat) returns (ok: bool)
      modifies this`bank
      ensures Moved(PayTokens(from, to, amount), ok)
    {
      if amount == 0 { return true; }
      if Get(bank.payment, from) < amount { return false; }
      bank := bank.(payment := bank.payment[from := Get(bank.payment, from) - amount]);
      bank := bank.(payment := bank.payment[to := Get(bank.payment, to) + amount]);
      return true;
    }

    method TransferSolans(from: Account, to: Account, amount: nat) returns (ok: bool)
      modifies this`bank
      ensures Moved(PaySolans(from, to, amount), ok)
    {
      if amount == 0 { return true; }
      if Get(bank.solans, from) < amount { return false; }
      bank := bank.(solans := bank.solans[from := Get(bank.solans, from) - amount]);
      bank := bank.(solans := bank.solans[to := Get(bank.solans, to) + amount]);
      return true;
    }

    method BurnTokens(from: Account, amount: nat) returns (ok: bool)
      modifies this`bank
      ensures Moved(BurnSolans(from, amount), ok)
    {
      if amount == 0 { return true; }
      if Get(bank.solans, from) < amount || amount > bank.supply { return false; }
      bank := bank.(solans := bank.solans[from := Get(bank.solans, from) - amount], supply := bank.supply - amount);
      return true;
    }

    /** A token account can be created once. */
    method CreateTokenAccount(vault: Account) returns (ok: bool)
      modifies this`bank
      ensures Moved(OpenVault(vault), ok)
    {
      if vault in bank.solans { return false; }
      bank := bank.(solans := bank.solans[vault := 0]);
      return true;
    }

    /** A token account must be empty to be closed. */
    method CloseTokenAccount(vault: Account) returns (ok: bool)
      modifies this`bank
      ensures Moved(CloseVault(vault), ok)
    {
      if Get(bank.solans, vault) > 0 { return false; }
      bank := bank.(solans := bank.solans - {vault});
      return true;
    }

    method TransferLamports(from: Account, to: Account, amount: nat) returns (ok: bool)
      modifies this`bank
      ensures Moved(PayLamports(from, to, amount), ok)
    {
      if amount == 0 { return true; }
      if Get(bank.lamports, from) < amount { return false; }
      bank := bank.(lamports := bank.lamports[from := Get(bank.lamports, from) - amount]);
      bank := bank.(lamports := bank.lamports[to := Get(bank.lamports, to) + amount]);
      return true;
    }

    /** Direct debit of a program-owned account: both balances are read before either is written. */
    method MoveLamportsOut(from: Account, to: Account, amount: nat) returns (ok: bool)
      modifies this`bank
      ensures Moved(DebitLamports(from, to, amount), ok)
    {
      if amount == 0 { return true; }
      var start := bank;
      var fromBalance := Get(bank.lamports, from);
      var toBalance := Get(bank.lamports, to);
      if fromBalance < amount { return false; }
      bank := bank.(lamports := bank.lamports[from := fromBalance - amount]);
      if toBalance + amount > U64_MAX {
        bank := start;
        return false;
      }
      bank := bank.(lamports := bank.lamports[to := toBalance + amount]);
      return true;
    }

    /** Close a program-owned account: all its lamports go to `to`. */
    method CloseAccount(from: Account, to: Account)
      modifies this`bank
      ensures Moved(CloseLamports(from, to), true)
    {
      var paid := TransferLamports(from, to, Get(bank.lamports, from));
      assert paid;
    }

    /** One payment fanned out over up to four accounts; without a referrer that share goes to the treasury. */
    method DistributeFee(payer: Pubkey, referral: Option<Account>, amount: nat) returns (ok: bool)
      modifies this`bank
      ensures Charged(Some(FeeMoves(config, payer, referral, amount)), ok)
    {
      var start, from, split := bank, Wallet(payer), FeeSplit(config, amount);
      var treasuryShare := split.treasury;
      ghost var m := PayTokens(from, config.stakingVault, split.staking);
      ghost var n := PayTokens(from, config.burnVault, split.burn);
      ok := TransferTokens(from, config.stakingVault, split.staking);
      if ok { ok := TransferTokens(from, config.burnVault, split.burn); }
      ghost var half := AndThen(MakeMove(start, m), n);
      assert ok <==> half.Some?;
      assert ok ==> bank == half.value;
      match referral {
        case Some(r) =>
          FourMoves(start, m, n, PayTokens(from, r, split.referral), PayTokens(from, config.treasury, treasuryShare));
          if ok { ok := TransferTokens(from, r, split.referral); }
        case None =>
          treasuryShare := treasuryShare + split.referral;
          ThreeMoves(start, m, n, PayTokens(from, config.treasury, treasuryShare));
      }
      if ok { ok := TransferTokens(from, config.treasury, treasuryShare); }
      if !ok { bank := start; }
    }

    /** Charge a term of `years`, in the payment token or by burning `$SOLANS`. */
    method Charge(name: string, years: nat, payment: Payment) returns (ok: bool)
      modifies this`bank
      ensures Charged(TermMoves(config, name, years, payment), ok)
    {
      var amount := PriceForLabel(config, name) * years;
      if amount > U64_MAX { return false; }
      match payment {
        case InUsdc(payer, referral) =>
          ok := DistributeFee(payer, referral, amount);
        case InSolans(payer) =>
          if !SolansEnabled(config) { return false; }
          var burned := SolansFee(config, amount);
          if burned.None? { return false; }
          OneMove(bank, BurnSolans(Wallet(payer), burned.value));
          ok := BurnTokens(Wallet(payer), burned.value);
      }
    }

    // ----- registration and renewal

    method CheckName(name: string, tld: string) returns (ok: bool)
      ensures ok <==> ValidLabel(name) && AllowedTld(tld)
    {
      var invalid := ValidateName(name);
      return invalid.None? && AllowedTld(tld);
    }

    method NewRecord(id: NameId, owner: Pubkey, name: string, tld: string, years: nat) returns (r: Option<NameRecord>)
      ensures r == Registration(Environment(), id, CellAt(id), owner, name, tld, years)
    {
      var valid := CheckName(name, tld);
      if id in records || !valid || id != TopLevel(name, tld) || !ValidTerm(config, years) { return None; }
      var expiresAt := now + years * SECONDS_PER_YEAR;
      if expiresAt > I64_MAX { return None; }
      return Some(NameRecord(owner, None, tld, now, expiresAt, [], None, None, false, false, None, None, 0, 0, false));
    }

    method RegisterName(id: NameId, owner: Pubkey, name: string, tld: string, years: nat, payment: Payment) returns (ok: bool)
      modifies this
      ensures Applies(id, old(Registry.RegisterName(Environment(), id, CellAt(id), owner, name, tld, years, payment)), ok)
    {
      OnlyRecord(id);
      var nr := NewRecord(id, owner, name, tld, years);
      if nr.None? { return false; }
      ok := Charge(name, years, payment);
      if ok { records := records[id := nr.value]; }
    }

    /** The checks and the new expiry shared by the renewal instructions. */
    method ExtendTerm(id: NameId, name: string, tld: string, years: nat) returns (r: Option<NameRecord>)
      ensures r == Extended(Environment(), id, CellAt(id), name, tld, years)
    {
      var valid := CheckName(name, tld);
      if id !in records || !valid || id != TopLevel(name, tld) || !ValidTerm(config, years) { return None; }
      var nr := records[id];
      var base := Max(nr.expiresAt, now);
      if base + years * SECONDS_PER_YEAR > I64_MAX { return None; }
      return Some(nr.(expiresAt := base + years * SECONDS_PER_YEAR));
    }

    method RenewName(id: NameId, name: string, tld: string, years: nat, payment: Payment) returns (ok: bool)
      modifies this
      ensures Applies(id, old(Registry.RenewName(Environment(), id, CellAt(id), name, tld, years, payment)), ok)
    {
      OnlyRecord(id);
      var nr := ExtendTerm(id, name, tld, years);
      if nr.None? { return false; }
      ok := Charge(name, years, payment);
      if ok { records := records[id := nr.value]; }
    }

    method AutoRenew(id: NameId, name: string, tld: string, years: nat) returns (ok: bool)
      modifies this
      ensures Applies(id, old(Registry.AutoRenew(Environment(), id, CellAt(id), name, tld, years)), ok)
    {
      OnlyRecord(id);
      var nr := ExtendTerm(id, name, tld, years);
      if nr.None? || years != 1 || now < records[id].expiresAt - RENEWAL_WINDOW { return false; }
      ok := Charge(name, years, InUsdc(records[id].owner, None));
      if ok { records := records[id := nr.value]; }
    }

    /** A takeover resets every field but the TLD. */
    method TakeOver(id: NameId, claimer: Pubkey, name: string, tld: string, years: nat) returns (r: Option<NameRecord>)
      ensures r == Takeover(Environment(), id, CellAt(id), claimer, name, tld, years)
    {
      var valid := CheckName(name, tld);
      if id !in records || !valid { return None; }
      var nr := records[id];
      if nr.parent.Some? || id != TopLevel(name, tld) { return None; }
      var graceEnd := nr.expiresAt + config.gracePeriod;
      if graceEnd > I64_MAX || now <= graceEnd || !ValidTerm(config, years) { return None; }
      var expiresAt := now + years * SECONDS_PER_YEAR;
      if expiresAt > I64_MAX { return None; }
      nr := nr.(owner := claimer, controller := None);
      nr := nr.(registeredAt := now, expiresAt := expiresAt);
      nr := nr.(records := [], resolver := None, hostingRef := None);
      nr := nr.(transferLocked := false, reverseSet := false, nftMint := None);
      nr := nr.(parent := None, parentRegisteredAt := 0, depth := 0, listed := false);
      return Some(nr);
    }

    method ClaimExpired(id: NameId, claimer: Pubkey, name: string, tld: string, years: nat, referral: Option<Account>) returns (ok: bool)
      modifies this
      ensures Applies(id, old(Registry.ClaimExpired(Environment(), id, CellAt(id), claimer, name, tld, years, referral)), ok)
    {
      OnlyRecord(id);
      var nr := TakeOver(id, claimer, name, tld, years);
      if nr.None? { return false; }
      ok := Charge(name, years, InUsdc(claimer, referral));
      if ok { records := records[id := nr.value]; }
    }

    // ----- the owner's instructions

    method BurnName(id: NameId, signer: Pubkey) returns (ok: bool)
      modifies this
      ensures Applies(id, old(Registry.BurnName(CellAt(id), signer)), ok)
    {
      OnlyRecord(id);
      if id !in records || records[id].owner != signer { return false; }
      if records[id].nftMint.Some? || records[id].listed { return false; }
      records := records - {id};
      return true;
    }

    method TransferName(id: NameId, signer: Pubkey, newOwner: Pubkey) returns (ok: bool)
      modifies this
      ensures Applies(id, old(Registry.TransferName(CellAt(id), signer, newOwner)), ok)
    {
      OnlyRecord(id);
      if id !in records || records[id].owner != signer { return false; }
      var nr := records[id];
      if nr.nftMint.Some? || nr.listed || nr.transferLocked { return false; }
      nr := nr.(owner := newOwner);
      nr := nr.(controller := None);
      nr := nr.(reverseSet := false);
      records := records[id := nr];
      return true;
    }

    method SetController(id: NameId, signer: Pubkey, controller: Option<Pubkey>) returns (ok: bool)
      modifies this
      ensures Applies(id, old(Registry.SetController(CellAt(id), signer, controller)), ok)
    {
      OnlyRecord(id);
      if id !in records || records[id].owner != signer { return false; }
      if records[id].nftMint.Some? || records[id].listed { return false; }
      records := records[id := records[id].(controller := controller)];
      return true;
    }

    method LockTransfer(id: NameId, signer: Pubkey, lock: bool) returns (ok: bool)
      modifies this
      ensures Applies(id, old(Registry.LockTransfer(CellAt(id), signer, lock)), ok)
    {
      OnlyRecord(id);
      if id !in records || records[id].owner != signer { return false; }
      if records[id].nftMint.Some? || records[id].listed { return false; }
      records := records[id := records[id].(transferLocked := lock)];
      return true;
    }

    method WriteRecord(rs: seq<Record>, key: string, value: Option<string>) returns (after: Option<seq<Record>>)
      ensures after == Written(rs, key, value)
    {
      if |Utf8(key)| > KEY_MAX_LEN { return None; }
      var store := new Store(rs);
      var ok: bool;
      match value {
        case Some(v) =>
          if |Utf8(v)| > VALUE_MAX_LEN { return None; }
          ok := store.UpsertRecord(key, v);
        case None =>
          ok := store.DeleteRecord(key);
      }
      return if ok then Some(store.records) else None;
    }

    method UpdateRecord(id: NameId, signer: Pubkey, nft: Option<NftAccount>, key: string, value: Option<string>) returns (ok: bool)
      modifies this
      ensures Applies(id, old(Registry.UpdateRecord(CellAt(id), signer, nft, key, value)), ok)
    {
      OnlyRecord(id);
      if id !in records || records[id].listed { return false; }
      var nr := records[id];
      if !HasAuthority(nr, signer, nft) && nr.controller != Some(signer) { return false; }
      var rs := WriteRecord(nr.records, key, value);
      if rs.None? { return false; }
      records := records[id := nr.(records := rs.value)];
      return true;
    }

    method SetResolver(id: NameId, signer: Pubkey, nft: Option<NftAccount>, resolver: Option<Pubkey>) returns (ok: bool)
      modifies this
      ensures Applies(id, old(Registry.SetResolver(CellAt(id), signer, nft, resolver)), ok)
    {
      OnlyRecord(id);
      if id !in records || records[id].listed || !HasAuthority(records[id], signer, nft) { return false; }
      records := records[id := records[id].(resolver := resolver)];
      return true;
    }

    method SetHosting(id: NameId, signer: Pubkey, nft: Option<NftAccount>, hosting: Option<string>) returns (ok: bool)
      modifies this
      ensures Applies(id, old(Registry.SetHosting(CellAt(id), signer, nft, hosting)), ok)
    {
      OnlyRecord(id);
      if id !in records || records[id].listed { return false; }
      if !HasAuthority(records[id], signer, nft) && records[id].controller != Some(signer) { return false; }
      if hosting.Some? && |Utf8(hosting.value)| > HOSTING_MAX_LEN { return false; }
      records := records[id := records[id].(hostingRef := hosting)];
      return true;
    }

    /** The NFT's display name: the full name cut, whole characters at a time, to Metaplex's byte limit. */
    method NftName(name: string, tld: string) returns (nftName: string)
      ensures nftName <= name + "." + tld && |Utf8(nftName)| <= MPL_NAME_MAX_LEN
      ensures nftName != name + "." + tld ==> |Utf8((name + "." + tld)[..|nftName| + 1])| > MPL_NAME_MAX_LEN
    {
      nftName := name + "." + tld;
      ghost var full := nftName;
      while |Utf8(nftName)| > MPL_NAME_MAX_LEN
        invariant nftName <= full
        invariant nftName != full ==> |Utf8(full[..|nftName| + 1])| > MPL_NAME_MAX_LEN
        decreases |nftName|
      {
        assert full[..|nftName|] == nftName;
        nftName := nftName[..|nftName| - 1];
      }
    }

    method TokenizeName(id: NameId, signer: Pubkey, name: string, mint: Pubkey) returns (ok: bool)
      modifies this
      ensures Applies(id, old(Registry.TokenizeName(id, CellAt(id), signer, name, mint)), ok)
    {
      OnlyRecord(id);
      if id !in records || records[id].owner != signer { return false; }
      var nr := records[id];
      if nr.nftMint.Some? || nr.listed || nr.parent.Some? { return false; }
      if id != TopLevel(name, nr.tld) { return false; }
      records := records[id := nr.(nftMint := Some(mint))];
      return true;
    }

    method RedeemName(id: NameId, nft: NftAccount) returns (ok: bool)
      modifies this
      ensures Applies(id, old(Registry.RedeemName(CellAt(id), nft)), ok)
    {
      OnlyRecord(id);
      if id !in records || records[id].nftMint != Some(nft.mint) || nft.amount != 1 { return false; }
      var nr := records[id];
      nr := nr.(owner := nft.owner);
      nr := nr.(controller := None, reverseSet := false);
      nr := nr.(nftMint := None);
      records := records[id := nr];
      return true;
    }

    // ----- fixed-price listings

    method ListName(id: NameId, signer: Pubkey, price: nat, duration: int) returns (ok: bool)
      modifies this
      ensures Applies(id, old(Registry.ListName(Environment(), CellAt(id), signer, price, duration)), ok)
    {
      OnlyRecord(id);
      if id !in records || records[id].owner != signer || id in listings { return false; }
      var nr := records[id];
      if nr.nftMint.Some? || nr.transferLocked || nr.listed { return false; }
      if duration <= 0 || now + duration > I64_MAX { return false; }
      listings := listings[id := Listing(signer, price, now + duration)];
      records := records[id := nr.(listed := true)];
      return true;
    }

    method UpdateListing(id: NameId, signer: Pubkey, price: nat, duration: int) returns (ok: bool)
      modifies this
      ensures Applies(id, old(Registry.UpdateListing(Environment(), CellAt(id), signer, price, duration)), ok)
    {
      OnlyListing(id);
      if id !in listings || listings[id].seller != signer { return false; }
      if duration <= 0 || now + duration > I64_MAX { return false; }
      var listing := listings[id];
      listing := listing.(price := price);
      listing := listing.(expiresAt := now + duration);
      listings := listings[id := listing];
      return true;
    }

    method CancelListing(id: NameId, signer: Pubkey) returns (ok: bool)
      modifies this
      ensures Applies(id, old(Registry.CancelListing(Environment(), CellAt(id), signer)), ok)
    {
      OnlyRecord(id);
      if id !in records || id !in listings { return false; }
      if signer != listings[id].seller && now <= listings[id].expiresAt { return false; }
      records := records[id := records[id].(listed := false)];
      listings := listings - {id};
      return true;
    }

    method BuyName(id: NameId, buyer: Pubkey, expectedPrice: nat) returns (ok: bool)
      modifies this
      ensures Applies(id, old(Registry.BuyName(Environment(), CellAt(id), buyer, expectedPrice)), ok)
    {
      OnlyRecord(id);
      if id !in records || id !in listings { return false; }
      var nr, listing := records[id], listings[id];
      if !nr.listed || nr.owner != listing.seller || buyer == listing.seller { return false; }
      if now > listing.expiresAt || expectedPrice != listing.price { return false; }
      var start := bank;
      var fee := SaleFee(config, listing.price);
      var toSeller := SatSub(listing.price, fee);
      FewMoves(start, PayLamports(Wallet(buyer), Wallet(listing.seller), toSeller), PayLamports(Wallet(buyer), Wallet(config.solTreasury), fee));
      ok := TransferLamports(Wallet(buyer), Wallet(listing.seller), toSeller);
      if ok { ok := TransferLamports(Wallet(buyer), Wallet(config.solTreasury), fee); }
      if !ok {
        bank := start;
        return;
      }
      nr := nr.(owner := buyer);
      nr := nr.(controller := None, reverseSet := false);
      nr := nr.(listed := false);
      records := records[id := nr];
      listings := listings - {id};
    }

    // ----- auctions

    method StartAuction(id: NameId, signer: Pubkey, reserve: nat, minIncrement: nat, duration: int) returns (ok: bool)
      modifies this
      ensures Applies(id, old(Registry.StartAuction(Environment(), id, CellAt(id), signer, reserve, minIncrement, duration)), ok)
    {
      OnlyRecord(id);
      if id !in records || records[id].owner != signer || id in auctions { return false; }
      var nr := records[id];
      if !SolansEnabled(config) || nr.nftMint.Some? || nr.parent.Some? || nr.transferLocked || nr.listed { return false; }
      if duration <= 0 || now + duration > I64_MAX { return false; }
      OneMove(bank, OpenVault(BidVault(id)));
      ok := CreateTokenAccount(BidVault(id));
      if !ok { return; }
      auctions := auctions[id := Auction(signer, None, 0, reserve, minIncrement, now + duration)];
      records := records[id := nr.(listed := true)];
    }

    method Bid(id: NameId, bidder: Pubkey, amount: nat) returns (ok: bool)
      modifies this
      ensures Applies(id, old(Registry.Bid(Environment(), id, CellAt(id), bidder, amount)), ok)
    {
      OnlyAuction(id);
      if id !in auctions || now >= auctions[id].endTime || bidder == auctions[id].seller { return false; }
      var auction := auctions[id];
      var minRequired := auction.reserve;
      if auction.highestBidder.Some? {
        minRequired := auction.highestBid + auction.minIncrement;
      }
      var minEnd := now + AUCTION_EXTENSION;
      if minRequired > U64_MAX || amount == 0 || amount < minRequired || minEnd > I64_MAX { return false; }
      ok := EscrowBid(id, auction, bidder, amount);
      if !ok { return; }
      auction := auction.(highestBidder := Some(bidder));
      auction := auction.(highestBid := amount);
      if auction.endTime < minEnd {
        auction := auction.(endTime := minEnd);
      }
      auctions := auctions[id := auction];
    }

    /** Refund the previous bidder out of the vault, then escrow the new bid. */
    method EscrowBid(id: NameId, auction: Auction, bidder: Pubkey, amount: nat) returns (ok: bool)
      modifies this`bank
      ensures Charged(Some(BidMoves(id, auction, bidder, amount)), ok)
    {
      var start := bank;
      ghost var escrow := PaySolans(Wallet(bidder), BidVault(id), amount);
      ok := true;
      match auction.highestBidder {
        case Some(prev) =>
          FewMoves(start, PaySolans(BidVault(id), Wallet(prev), auction.highestBid), escrow);
          assert BidMoves(id, auction, bidder, amount) == [PaySolans(BidVault(id), Wallet(prev), auction.highestBid), escrow];
          ok := TransferSolans(BidVault(id), Wallet(prev), auction.highestBid);
        case None =>
          OneMove(start, escrow);
          assert BidMoves(id, auction, bidder, amount) == [escrow];
      }
      if ok { ok := TransferSolans(Wallet(bidder), BidVault(id), amount); }
      if !ok { bank := start; }
    }

    /** Pay the seller and burn the fee, both out of the vault, then close it. */
    method PayOut(id: NameId, auction: Auction) returns (ok: bool)
      modifies this`bank
      ensures Charged(Some(SettleMoves(config, id, auction)), ok)
    {
      var start, vault := bank, BidVault(id);
      ok := true;
      if auction.highestBidder.Some? {
        var fee := SaleFee(config, auction.highestBid);
        var toSeller := SatSub(auction.highestBid, fee);
        ThreeMoves(start, PaySolans(vault, Wallet(auction.seller), toSeller), BurnSolans(vault, fee), CloseVault(vault));
        ok := TransferSolans(vault, Wallet(auction.seller), toSeller);
        if ok { ok := BurnTokens(vault, fee); }
      } else {
        assert SettleMoves(config, id, auction) == [CloseVault(vault)];
        OneMove(start, CloseVault(vault));
      }
      if ok { ok := CloseTokenAccount(vault); }
      if !ok { bank := start; }
    }

    method SettleAuction(id: NameId) returns (ok: bool)
      modifies this
      ensures Applies(id, old(Registry.SettleAuction(Environment(), id, CellAt(id))), ok)
    {
      OnlyRecord(id);
      if id !in records || id !in auctions || now < auctions[id].endTime { return false; }
      var auction := auctions[id];
      ok := PayOut(id, auction);
      if !ok { return; }
      var nr := records[id];
      if auction.highestBidder.Some? {
        nr := nr.(owner := auction.highestBidder.value);
        nr := nr.(controller := None, reverseSet := false);
      }
      nr := nr.(listed := false);
      records := records[id := nr];
      auctions := auctions - {id};
    }

    method CancelAuction(id: NameId, signer: Pubkey) returns (ok: bool)
      modifies this
      ensures Applies(id, old(Registry.CancelAuction(id, CellAt(id), signer)), ok)
    {
      OnlyRecord(id);
      if id !in records || id !in auctions || auctions[id].seller != signer || auctions[id].highestBidder.Some? { return false; }
      OneMove(bank, CloseVault(BidVault(id)));
      ok := CloseTokenAccount(BidVault(id));
      if !ok { return; }
      records := records[id := records[id].(listed := false)];
      auctions := auctions - {id};
    }

    // ----- subdomains and reverse records

    method WrapSubdomain(signer: Pubkey, parentId: NameId, name: string, owner: Pubkey) returns (ok: bool)
      modifies this
      ensures Follows(Instruction.WrapSubdomain(signer, parentId, name, owner), ok)
    {
      if parentId !in records || records[parentId].owner != signer { return false; }
      var parent := records[parentId];
      if parent.nftMint.Some? || parent.listed || now > parent.expiresAt { return false; }
      var invalid := ValidateName(name);
      var depth := parent.depth + 1;
      var id := Subdomain(parentId, name);
      if invalid.Some? || depth > MAX_SUBDOMAIN_DEPTH || id in records { return false; }
      records := records[id := NameRecord(owner, None, parent.tld, now, parent.expiresAt, [], None, None, false, false, None,
                                          Some(parentId), parent.registeredAt, depth, false)];
      return true;
    }

    method RevokeSubdomain(signer: Pubkey, parentId: NameId, childId: NameId) returns (ok: bool)
      modifies this
      ensures Follows(Instruction.RevokeSubdomain(signer, parentId, childId), ok)
    {
      if parentId !in records || childId !in records { return false; }
      if records[parentId].owner != signer || records[childId].parent != Some(parentId) { return false; }
      if records[childId].nftMint.Some? { return false; }
      records := records - {childId};
      return true;
    }

    method SetReverse(signer: Pubkey, id: NameId, name: string) returns (ok: bool)
      modifies this
      ensures Follows(Instruction.SetReverse(signer, id, name), ok)
    {
      if id !in records || records[id].owner != signer { return false; }
      var nr := records[id];
      if nr.nftMint.Some? || nr.listed || nr.parent.Some? || id != TopLevel(name, nr.tld) { return false; }
      reverses := reverses[signer := Reverse(id, name, nr.tld)];
      records := records[id := nr.(reverseSet := true)];
      return true;
    }

    // ----- offers

    method MakeOffer(buyer: Pubkey, id: NameId, amount: U64, duration: int) returns (ok: bool)
      modifies this
      ensures Follows(Instruction.MakeOffer(buyer, id, amount, duration), ok)
    {
      if id !in records || (id, buyer) in offers || duration <= 0 || now + duration > I64_MAX { return false; }
      OneMove(bank, PayLamports(Wallet(buyer), OfferEscrow(id, buyer), amount));
      ok := TransferLamports(Wallet(buyer), OfferEscrow(id, buyer), amount);
      if ok { offers := offers[(id, buyer) := Offer(amount, now + duration)]; }
    }

    /** Debit the escrow for the owner and the treasury; closing it refunds the rest to the buyer. */
    method ReleaseEscrow(id: NameId, owner: Pubkey, buyer: Pubkey, amount: nat) returns (ok: bool)
      modifies this`bank
      ensures Charged(Some(AcceptMoves(config, id, owner, buyer, amount)), ok)
    {
      var start, escrow := bank, OfferEscrow(id, buyer);
      var fee := SaleFee(config, amount);
      var toOwner := SatSub(amount, fee);
      ghost var m, n := DebitLamports(escrow, Wallet(owner), toOwner), DebitLamports(escrow, Wallet(config.solTreasury), fee);
      ThreeMoves(start, m, n, CloseLamports(escrow, Wallet(buyer)));
      assert AcceptMoves(config, id, owner, buyer, amount) == [m, n] + [CloseLamports(escrow, Wallet(buyer))];
      ok := MoveLamportsOut(escrow, Wallet(owner), toOwner);
      if ok { ok := MoveLamportsOut(escrow, Wallet(config.solTreasury), fee); }
      if ok { CloseAccount(escrow, Wallet(buyer)); } else { bank := start; }
    }

    method AcceptOffer(signer: Pubkey, id: NameId, buyer: Pubkey) returns (ok: bool)
      modifies this
      ensures Follows(Instruction.AcceptOffer(signer, id, buyer), ok)
    {
      if id !in records || (id, buyer) !in offers || records[id].owner != signer { return false; }
      var nr, offer := records[id], offers[(id, buyer)];
      if nr.nftMint.Some? || nr.listed || now > offer.expiresAt || buyer == signer { return false; }
      ok := ReleaseEscrow(id, signer, buyer, offer.amount);
      if !ok { return; }
      nr := nr.(owner := buyer);
      nr := nr.(controller := None, reverseSet := false);
      records := records[id := nr];
      offers := offers - {(id, buyer)};
    }

    method CancelOffer(signer: Pubkey, id: NameId, buyer: Pubkey, shown: Option<NameId>) returns (ok: bool)
      modifies this
      ensures Follows(Instruction.CancelOffer(signer, id, buyer, shown), ok)
    {
      if (id, buyer) !in offers { return false; }
      var isOwner := false;
      if shown.Some? {
        if shown.value !in records { return false; }
        isOwner := shown.value == id && records[id].owner == signer;
      }
      if signer != buyer && !isOwner && now <= offers[(id, buyer)].expiresAt { return false; }
      OneMove(bank, CloseLamports(OfferEscrow(id, buyer), Wallet(buyer)));
      CloseAccount(OfferEscrow(id, buyer), Wallet(buyer));
      offers := offers - {(id, buyer)};
      return true;
    }

    // ----- economics

    method BuybackBurn(keeper: Pubkey, amount: U64) returns (ok: bool)
      modifies this
      ensures Follows(Instruction.BuybackBurn(keeper, amount), ok)
    {
      if !SolansEnabled(config) || amount == 0 { return false; }
      var usdcOut := BuybackUsdc(config, amount);
      if usdcOut.None? || usdcOut.value == 0 || usdcOut.value > Get(bank.payment, config.burnVault) { return false; }
      var start := bank;
      FewMoves(start, PayTokens(config.burnVault, Wallet(keeper), usdcOut.value), BurnSolans(Wallet(keeper), amount));
      ok := TransferTokens(config.burnVault, Wallet(keeper), usdcOut.value);
      if ok { ok := BurnTokens(Wallet(keeper), amount); }
      if !ok { bank := start; }
    }

    method UpdateConfig(price1: U64, price2: U64, price3: U64, price4: U64, price5plus: U64, priceNumeric: U64,
                        gracePeriod: int, minYears: U16, maxYears: U16, solTreasury: Pubkey,
                        marketplaceFeeBps: U16, stakingFeeBps: U16, referralFeeBps: U16, burnFeeBps: U16) returns (ok: bool)
      requires ValidConfig(config)
      modifies this
      ensures Follows(Configure(old(config).(
                price1 := price1, price2 := price2, price3 := price3, price4 := price4, price5plus := price5plus,
                priceNumeric := priceNumeric, gracePeriod := gracePeriod, minYears := minYears, maxYears := maxYears,
                solTreasury := solTreasury, marketplaceFeeBps := marketplaceFeeBps,
                stakingFeeBps := stakingFeeBps, referralFeeBps := referralFeeBps, burnFeeBps := burnFeeBps)), ok)
    {
      if !(1 <= minYears <= maxYears) || gracePeriod < 0 { return false; }
      if price1 == 0 || price2 == 0 || price3 == 0 || price4 == 0 || price5plus == 0 || priceNumeric == 0 { return false; }
      if marketplaceFeeBps > MAX_FEE_BPS || stakingFeeBps + referralFeeBps + burnFeeBps >= BPS { return false; }
      config := config.(price1 := price1, price2 := price2, price3 := price3);
      config := config.(price4 := price4, price5plus := price5plus, priceNumeric := priceNumeric);
      config := config.(gracePeriod := gracePeriod, minYears := minYears, maxYears := maxYears);
      config := config.(solTreasury := solTreasury, marketplaceFeeBps := marketplaceFeeBps);
      config := config.(stakingFeeBps := stakingFeeBps, referralFeeBps := referralFeeBps, burnFeeBps := burnFeeBps);
      return true;
    }

    method SetSolansParams(rate: U64, discountBps: U16) returns (ok: bool)
      requires ValidConfig(config)
      modifies this
      ensures Follows(Configure(old(config).(solansRate := rate, solansDiscountBps := discountBps)), ok)
    {
      if discountBps >= BPS { return false; }
      config := config.(solansRate := rate, solansDiscountBps := discountBps);
      return true;
    }

    /** The configuration's part of opening a staking pool: the staker share goes to its reward vault. */
    method InitStakePool(rewardVault: Account) returns (ok: bool)
      requires ValidConfig(config)
      modifies this
      ensures ok && Follows(Configure(old(config).(stakingVault := rewardVault)), ok)
    {
      config := config.(stakingVault := rewardVault);
      return true;
    }

    /** Turn on the burn vault and name the `$SOLANS` mint. */
    method InitBurnPool(burnVault: Account, solansMint: Pubkey) returns (ok: bool)
      requires ValidConfig(config)
      modifies this
      ensures ok && Follows(Configure(old(config).(burnVault := burnVault, solansMint := solansMint)), ok)
    {
      config := config.(burnVault := burnVault);
      config := config.(solansMint := solansMint);
      return true;
    }

    // ----- the entry point

    /** Dispatch the instructions that sell a term. */
    method PerformTerm(id: NameId, op: NameOp) returns (ok: bool)
      requires TermOp(op)
      modifies this
      ensures Applies(id, old(Perform(Environment(), id, CellAt(id), op)), ok)
    {
      match op {
        case Register(owner, name, tld, years, payment) => ok := RegisterName(id, owner, name, tld, years, payment); return;
        case Renew(name, tld, years, payment) => ok := RenewName(id, name, tld, years, payment); return;
        case KeeperRenew(name, tld, years) => ok := AutoRenew(id, name, tld, years); return;
        case Claim(claimer, name, tld, years, referral) => ok := ClaimExpired(id, claimer, name, tld, years, referral); return;
      }
    }

    /** Dispatch the instructions about the record itself. */
    method PerformRecord(id: NameId, op: NameOp) returns (ok: bool)
      requires RecordOp(op)
      modifies this
      ensures Applies(id, old(Perform(Environment(), id, CellAt(id), op)), ok)
    {
      match op {
        case Release(signer) => ok := BurnName(id, signer); return;
        case Give(signer, newOwner) => ok := TransferName(id, signer, newOwner); return;
        case Delegate(signer, controller) => ok := SetController(id, signer, controller); return;
        case Lock(signer, lock) => ok := LockTransfer(id, signer, lock); return;
        case Write(signer, nft, key, value) => ok := UpdateRecord(id, signer, nft, key, value); return;
        case Resolver(signer, nft, resolver) => ok := SetResolver(id, signer, nft, resolver); return;
        case Hosting(signer, nft, hosting) => ok := SetHosting(id, signer, nft, hosting); return;
        case Tokenize(signer, name, mint) => ok := TokenizeName(id, signer, name, mint); return;
        case Redeem(holding) => ok := RedeemName(id, holding); return;
      }
    }

    /** Dispatch the instructions about a listing of the name. */
    method PerformListing(id: NameId, op: NameOp) returns (ok: bool)
      requires ListingOp(op)
      modifies this
      ensures Applies(id, old(Perform(Environment(), id, CellAt(id), op)), ok)
    {
      match op {
        case OpenListing(signer, price, duration) => ok := ListName(id, signer, price, duration); return;
        case Reprice(signer, price, duration) => ok := UpdateListing(id, signer, price, duration); return;
        case CloseListing(signer) => ok := CancelListing(id, signer); return;
        case Buy(buyer, expectedPrice) => ok := BuyName(id, buyer, expectedPrice); return;
      }
    }

    /** Dispatch the instructions about an auction of the name. */
    method PerformAuction(id: NameId, op: NameOp) returns (ok: bool)
      requires AuctionOp(op)
      modifies this
      ensures Applies(id, old(Perform(Environment(), id, CellAt(id), op)), ok)
    {
      match op {
        case OpenAuction(signer, reserve, minIncrement, duration) => ok := StartAuction(id, signer, reserve, minIncrement, duration); return;
        case PlaceBid(bidder, amount) => ok := Bid(id, bidder, amount); return;
        case Settle => ok := SettleAuction(id); return;
        case CallOff(signer) => ok := CancelAuction(id, signer); return;
      }
    }

    method ExecuteOnName(id: NameId, op: NameOp) returns (ok: bool)
      modifies this
      ensures Follows(OnName(id, op), ok)
    {
      OnNameIs(Accounts(), id, op, Perform(Environment(), id, CellAt(id), op));
      if ListingOp(op) {
        ok := PerformListing(id, op);
      } else if AuctionOp(op) {
        ok := PerformAuction(id, op);
      } else if TermOp(op) {
        ok := PerformTerm(id, op);
      } else {
        ok := PerformRecord(id, op);
      }
    }

    /** Dispatch one transaction. */
    method Execute(ix: Instruction) returns (ok: bool)
      modifies this
      ensures Follows(ix, ok)
    {
      match ix {
        case OnName(id, op) => ok := ExecuteOnName(id, op);
        case WrapSubdomain(signer, parent, name, owner) => ok := WrapSubdomain(signer, parent, name, owner);
        case RevokeSubdomain(signer, parent, child) => ok := RevokeSubdomain(signer, parent, child);
        case SetReverse(signer, id, name) => ok := SetReverse(signer, id, name);
        case MakeOffer(buyer, id, amount, duration) => ok := MakeOffer(buyer, id, amount, duration);
        case AcceptOffer(signer, id, buyer) => ok := AcceptOffer(signer, id, buyer);
        case CancelOffer(signer, id, buyer, shown) => ok := CancelOffer(signer, id, buyer, shown);
        case BuybackBurn(keeper, amount) => ok := BuybackBurn(keeper, amount);
        case Configure(next) => ok := Reconfigure(next);
        case Send(payment) => ok := MakePayment(payment);
        case Tick(seconds) => ok := Advance(seconds);
      }
    }

    /** Any change of configuration that passes the checks, including the vaults set when a pool is initialised. */
    method Reconfigure(next: Config) returns (ok: bool)
      modifies this
      ensures Follows(Configure(next), ok)
    {
      ok := ValidConfig(next);
      if ok { config := next; }
    }

    /** A payment made outside the registry. */
    method MakePayment(payment: Move) returns (ok: bool)
      modifies this
      ensures Follows(Send(payment), ok)
    {
      if !Ordinary(payment) { return false; }
      OneMove(bank, payment);
      if payment.PayLamports? {
        ok := TransferLamports(payment.from, payment.to, payment.amount);
      } else if payment.PayTokens? {
        ok := TransferTokens(payment.from, payment.to, payment.amount);
      } else if payment.PaySolans? {
        ok := TransferSolans(payment.from, payment.to, payment.amount);
      } else if payment.BurnSolans? {
        ok := BurnTokens(payment.from, payment.amount);
      } else {
        ok := CreateTokenAccount(payment.vault);
      }
    }

    method Advance(seconds: nat) returns (ok: bool)
      modifies this
      ensures Follows(Tick(seconds), ok)
    {
      ok := now + seconds <= I64_MAX;
      if ok { now := now + seconds; }
    }

    /** Any sequence of transactions, failed ones included, leaves the state the model's run leaves. */
    method ExecuteAll(ixs: seq<Instruction>)
      modifies this
      ensures Accounts() == Run(old(Accounts()), ixs)
    {
      for i := 0 to |ixs|
        invariant Run(Accounts(), ixs[i..]) == Run(old(Accounts()), ixs)
      {
        assert ixs[i..][0] == ixs[i] && ixs[i..][1..] == ixs[i + 1..];
        var _ := Execute(ixs[i]);
      }
      assert ixs[|ixs|..] == [];
    }
  }
}
