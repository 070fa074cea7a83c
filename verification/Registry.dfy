/**
 * The registry and its markets as a state machine. Every name has a cell: its record and the
 * market accounts opened on it. An instruction checks its guards against one cell, rewrites the
 * cell and lists the payments it makes; a failed guard or payment reverts everything.
 */
module Registry {
  import opened Prelude
  import opened Naming
  import opened Ledger
  import opened Economics
  import opened RecordStore

  const SECONDS_PER_YEAR: int := 31_536_000
  const RENEWAL_WINDOW: int := 2_592_000
  const AUCTION_EXTENSION: int := 300
  const KEY_MAX_LEN := 32
  const VALUE_MAX_LEN := 200
  const HOSTING_MAX_LEN := 80

  datatype NameRecord = NameRecord(
    owner: Pubkey, controller: Option<Pubkey>, tld: string,
    registeredAt: int, expiresAt: int,
    records: seq<Record>, resolver: Option<Pubkey>, hostingRef: Option<string>,
    transferLocked: bool, reverseSet: bool, nftMint: Option<Pubkey>,
    parent: Option<NameId>, parentRegisteredAt: int, depth: nat, listed: bool)

  datatype Listing = Listing(seller: Pubkey, price: nat, expiresAt: int)

  datatype Auction = Auction(
    seller: Pubkey, highestBidder: Option<Pubkey>, highestBid: nat,
    reserve: nat, minIncrement: nat, endTime: int)

  datatype Offer = Offer(amount: nat, expiresAt: int)

  /** The wallet's reverse record: the key it points to and the human-readable name. */
  datatype Reverse = Reverse(hash: NameId, name: string, tld: string)

  /** Proof of NFT holdership: a token account presented by the signer. */
  datatype NftAccount = NftAccount(mint: Pubkey, owner: Pubkey, amount: nat)

  datatype Payment = InUsdc(payer: Pubkey, referral: Option<Account>) | InSolans(payer: Pubkey)

  datatype Cell = Cell(record: Option<NameRecord>, listing: Option<Listing>, auction: Option<Auction>)

  datatype Env = Env(now: int, config: Config)

  datatype Effect = Effect(cell: Cell, moves: seq<Move>)

  // ----- fees

  /** `distribute_fee`: one signed payment fanned out over up to four accounts. */
  function FeeMoves(c: Config, payer: Pubkey, referral: Option<Account>, amount: nat): seq<Move> {
    SplitMoves(c, Wallet(payer), referral, FeeSplit(c, amount))
  }

  function SplitMoves(c: Config, from: Account, referral: Option<Account>, s: Split): seq<Move> {
    [PayTokens(from, c.stakingVault, s.staking), PayTokens(from, c.burnVault, s.burn)]
    + match referral
      case Some(r) => [PayTokens(from, r, s.referral), PayTokens(from, c.treasury, s.treasury)]
      case None => [PayTokens(from, c.treasury, s.treasury + s.referral)]
  }

  function TermMoves(c: Config, name: string, years: nat, payment: Payment): Option<seq<Move>> {
    var fee :- TermFee(c, name, years);
    match payment
    case InUsdc(payer, referral) => Some(FeeMoves(c, payer, referral, fee))
    case InSolans(payer) =>
      if !SolansEnabled(c) then None else
      var burned :- SolansFee(c, fee);
      Some([BurnSolans(Wallet(payer), burned)])
  }

  predicate ValidTerm(c: Config, years: nat) {
    c.minYears <= years <= c.maxYears
  }

  function SaleMoves(c: Config, buyer: Pubkey, seller: Pubkey, price: nat): seq<Move> {
    [PayLamports(Wallet(buyer), Wallet(seller), SatSub(price, SaleFee(c, price))),
     PayLamports(Wallet(buyer), Wallet(c.solTreasury), SaleFee(c, price))]
  }

  // ----- authority

  predicate OwnedBy(c: Cell, signer: Pubkey) {
    c.record.Some? && c.record.value.owner == signer
  }

  /** Not tokenized and not on sale: structural changes are allowed. */
  predicate Unbound(r: NameRecord) {
    r.nftMint.None? && !r.listed
  }

  predicate HasAuthority(r: NameRecord, signer: Pubkey, nft: Option<NftAccount>) {
    match r.nftMint
    case Some(mint) => nft.Some? && nft.value.mint == mint && nft.value.owner == signer && nft.value.amount == 1
    case None => r.owner == signer
  }

  // ----- naming instructions

  function NewTopLevel(owner: Pubkey, tld: string, now: int, expiresAt: int): NameRecord {
    NameRecord(owner, None, tld, now, expiresAt, [], None, None, false, false, None, None, 0, 0, false)
  }

  function NewSubdomain(owner: Pubkey, now: int, p: NameRecord, parent: NameId): NameRecord {
    NameRecord(owner, None, p.tld, now, p.expiresAt, [], None, None, false, false, None, Some(parent), p.registeredAt, p.depth + 1, false)
  }

  /** The record a registration would create. */
  function Registration(e: Env, id: NameId, c: Cell, owner: Pubkey, name: string, tld: string, years: nat): Option<NameRecord> {
    if !(ValidLabel(name) && AllowedTld(tld) && id == TopLevel(name, tld) && c.record.None?) then None
    else if !ValidTerm(e.config, years) || e.now + years * SECONDS_PER_YEAR > I64_MAX then None
    else Some(NewTopLevel(owner, tld, e.now, e.now + years * SECONDS_PER_YEAR))
  }

  function RegisterName(e: Env, id: NameId, c: Cell, owner: Pubkey, name: string, tld: string, years: nat, payment: Payment): Option<Effect> {
    var r :- Registration(e, id, c, owner, name, tld, years);
    var moves :- TermMoves(e.config, name, years, payment);
    Some(Effect(c.(record := Some(r)), moves))
  }

  /** The guard and the new expiry shared by the renewal instructions. */
  function Extended(e: Env, id: NameId, c: Cell, name: string, tld: string, years: nat): Option<NameRecord> {
    if !(c.record.Some? && ValidLabel(name) && AllowedTld(tld) && id == TopLevel(name, tld)) then None
    else if !ValidTerm(e.config, years) then None
    else
      var until := Max(c.record.value.expiresAt, e.now) + years * SECONDS_PER_YEAR;
      if until > I64_MAX then None else Some(c.record.value.(expiresAt := until))
  }

  function RenewName(e: Env, id: NameId, c: Cell, name: string, tld: string, years: nat, payment: Payment): Option<Effect> {
    var r :- Extended(e, id, c, name, tld, years);
    var moves :- TermMoves(e.config, name, years, payment);
    Some(Effect(c.(record := Some(r)), moves))
  }

  /** A keeper renews for exactly one year, only near expiry, at the owner's expense. */
  function AutoRenew(e: Env, id: NameId, c: Cell, name: string, tld: string, years: nat): Option<Effect> {
    var r :- Extended(e, id, c, name, tld, years);
    if years != 1 || e.now < c.record.value.expiresAt - RENEWAL_WINDOW then None else
    var moves :- TermMoves(e.config, name, years, InUsdc(c.record.value.owner, None));
    Some(Effect(c.(record := Some(r)), moves))
  }

  /** A lapsed name past its grace period is taken over by a complete reset of its record. */
  function Takeover(e: Env, id: NameId, c: Cell, claimer: Pubkey, name: string, tld: string, years: nat): Option<NameRecord> {
    if !(c.record.Some? && ValidLabel(name) && AllowedTld(tld) && c.record.value.parent.None? && id == TopLevel(name, tld)) then None
    else if c.record.value.expiresAt + e.config.gracePeriod > I64_MAX || e.now <= c.record.value.expiresAt + e.config.gracePeriod then None
    else if !ValidTerm(e.config, years) || e.now + years * SECONDS_PER_YEAR > I64_MAX then None
    else Some(NewTopLevel(claimer, c.record.value.tld, e.now, e.now + years * SECONDS_PER_YEAR))
  }

  function ClaimExpired(e: Env, id: NameId, c: Cell, claimer: Pubkey, name: string, tld: string, years: nat, referral: Option<Account>): Option<Effect> {
    var r :- Takeover(e, id, c, claimer, name, tld, years);
    var moves :- TermMoves(e.config, name, years, InUsdc(claimer, referral));
    Some(Effect(c.(record := Some(r)), moves))
  }

  function BurnName(c: Cell, signer: Pubkey): Option<Effect> {
    if OwnedBy(c, signer) && Unbound(c.record.value) then Some(Effect(c.(record := None), [])) else None
  }

  /** Hand the name over: the previous owner's delegate and reverse flag do not carry over. */
  function HandedTo(r: NameRecord, owner: Pubkey): NameRecord {
    r.(owner := owner, controller := None, reverseSet := false)
  }

  function TransferName(c: Cell, signer: Pubkey, newOwner: Pubkey): Option<Effect> {
    if OwnedBy(c, signer) && Unbound(c.record.value) && !c.record.value.transferLocked
    then Some(Effect(c.(record := Some(HandedTo(c.record.value, newOwner))), [])) else None
  }

  function SetController(c: Cell, signer: Pubkey, controller: Option<Pubkey>): Option<Effect> {
    if OwnedBy(c, signer) && Unbound(c.record.value)
    then Some(Effect(c.(record := Some(c.record.value.(controller := controller))), [])) else None
  }

  function LockTransfer(c: Cell, signer: Pubkey, lock: bool): Option<Effect> {
    if OwnedBy(c, signer) && Unbound(c.record.value)
    then Some(Effect(c.(record := Some(c.record.value.(transferLocked := lock))), [])) else None
  }

  /** The record vector after a write or a delete, within the length limits. */
  function Written(rs: seq<Record>, key: string, value: Option<string>): Option<seq<Record>> {
    if |Utf8(key)| > KEY_MAX_LEN then None else
    match value
    case Some(v) => if |Utf8(v)| > VALUE_MAX_LEN then None else Upsert(rs, key, v)
    case None => Delete(rs, key)
  }

  function UpdateRecord(c: Cell, signer: Pubkey, nft: Option<NftAccount>, key: string, value: Option<string>): Option<Effect> {
    if c.record.None? || c.record.value.listed then None else
    var r := c.record.value;
    if !(HasAuthority(r, signer, nft) || r.controller == Some(signer)) then None else
    var rs :- Written(r.records, key, value);
    Some(Effect(c.(record := Some(r.(records := rs))), []))
  }

  function SetResolver(c: Cell, signer: Pubkey, nft: Option<NftAccount>, resolver: Option<Pubkey>): Option<Effect> {
    if c.record.Some? && !c.record.value.listed && HasAuthority(c.record.value, signer, nft)
    then Some(Effect(c.(record := Some(c.record.value.(resolver := resolver))), [])) else None
  }

  function SetHosting(c: Cell, signer: Pubkey, nft: Option<NftAccount>, hosting: Option<string>): Option<Effect> {
    if c.record.Some? && !c.record.value.listed
       && (HasAuthority(c.record.value, signer, nft) || c.record.value.controller == Some(signer))
       && (hosting.Some? ==> |Utf8(hosting.value)| <= HOSTING_MAX_LEN)
    then Some(Effect(c.(record := Some(c.record.value.(hostingRef := hosting))), [])) else None
  }

  /** The NFT itself is minted outside the registry; the record remembers its mint. */
  function TokenizeName(id: NameId, c: Cell, signer: Pubkey, name: string, mint: Pubkey): Option<Effect> {
    if OwnedBy(c, signer) && Unbound(c.record.value) && c.record.value.parent.None? && id == TopLevel(name, c.record.value.tld)
    then Some(Effect(c.(record := Some(c.record.value.(nftMint := Some(mint)))), [])) else None
  }

  function RedeemName(c: Cell, nft: NftAccount): Option<Effect> {
    if c.record.Some? && c.record.value.nftMint == Some(nft.mint) && nft.amount == 1
    then Some(Effect(c.(record := Some(HandedTo(c.record.value, nft.owner).(nftMint := None))), [])) else None
  }

  // ----- fixed-price listings

  function ListName(e: Env, c: Cell, signer: Pubkey, price: nat, duration: int): Option<Effect> {
    if OwnedBy(c, signer) && c.listing.None? && Unbound(c.record.value) && !c.record.value.transferLocked
       && duration > 0 && e.now + duration <= I64_MAX
    then Some(Effect(c.(record := Some(c.record.value.(listed := true)),
                        listing := Some(Listing(signer, price, e.now + duration))), []))
    else None
  }

  function UpdateListing(e: Env, c: Cell, signer: Pubkey, price: nat, duration: int): Option<Effect> {
    if c.listing.Some? && c.listing.value.seller == signer && duration > 0 && e.now + duration <= I64_MAX
    then Some(Effect(c.(listing := Some(c.listing.value.(price := price, expiresAt := e.now + duration))), []))
    else None
  }

  function CancelListing(e: Env, c: Cell, signer: Pubkey): Option<Effect> {
    if c.record.Some? && c.listing.Some? && (signer == c.listing.value.seller || e.now > c.listing.value.expiresAt)
    then Some(Effect(c.(record := Some(c.record.value.(listed := false)), listing := None), []))
    else None
  }

  function BuyName(e: Env, c: Cell, buyer: Pubkey, expectedPrice: nat): Option<Effect> {
    if !(c.record.Some? && c.listing.Some?) then None else
    var r, l := c.record.value, c.listing.value;
    if r.listed && r.owner == l.seller && buyer != l.seller && e.now <= l.expiresAt && expectedPrice == l.price
    then Some(Effect(c.(record := Some(HandedTo(r, buyer).(listed := false)), listing := None),
                     SaleMoves(e.config, buyer, l.seller, l.price)))
    else None
  }

  // ----- auctions

  /** The bid vault is created with the auction; an account that is already there makes that fail. */
  function StartAuction(e: Env, id: NameId, c: Cell, signer: Pubkey, reserve: nat, minIncrement: nat, duration: int): Option<Effect> {
    if OwnedBy(c, signer) && c.auction.None? && SolansEnabled(e.config)
       && Unbound(c.record.value) && c.record.value.parent.None? && !c.record.value.transferLocked
       && duration > 0 && e.now + duration <= I64_MAX
    then Some(Effect(c.(record := Some(c.record.value.(listed := true)),
                        auction := Some(Auction(signer, None, 0, reserve, minIncrement, e.now + duration))), [OpenVault(BidVault(id))]))
    else None
  }

  function MinimumBid(a: Auction): nat {
    if a.highestBidder.Some? then a.highestBid + a.minIncrement else a.reserve
  }

  function BidMoves(id: NameId, a: Auction, bidder: Pubkey, amount: nat): seq<Move> {
    (match a.highestBidder
     case Some(prev) => [PaySolans(BidVault(id), Wallet(prev), a.highestBid)]
     case None => [])
    + [PaySolans(Wallet(bidder), BidVault(id), amount)]
  }

  function Bid(e: Env, id: NameId, c: Cell, bidder: Pubkey, amount: nat): Option<Effect> {
    if c.auction.None? then None else
    var a := c.auction.value;
    if e.now >= a.endTime || bidder == a.seller then None
    else if MinimumBid(a) > U64_MAX || amount == 0 || amount < MinimumBid(a) || e.now + AUCTION_EXTENSION > I64_MAX then None
    else
      var after := a.(highestBidder := Some(bidder), highestBid := amount, endTime := Max(a.endTime, e.now + AUCTION_EXTENSION));
      Some(Effect(c.(auction := Some(after)), BidMoves(id, a, bidder, amount)))
  }

  function SettleMoves(c: Config, id: NameId, a: Auction): seq<Move> {
    (match a.highestBidder
     case Some(_) => [PaySolans(BidVault(id), Wallet(a.seller), SatSub(a.highestBid, SaleFee(c, a.highestBid))),
                      BurnSolans(BidVault(id), SaleFee(c, a.highestBid))]
     case None => [])
    + [CloseVault(BidVault(id))]
  }

  function SettleAuction(e: Env, id: NameId, c: Cell): Option<Effect> {
    if !(c.record.Some? && c.auction.Some?) || e.now < c.auction.value.endTime then None else
    var r, a := c.record.value, c.auction.value;
    var after := if a.highestBidder.Some? then HandedTo(r, a.highestBidder.value) else r;
    Some(Effect(c.(record := Some(after.(listed := false)), auction := None), SettleMoves(e.config, id, a)))
  }

  function CancelAuction(id: NameId, c: Cell, signer: Pubkey): Option<Effect> {
    if c.record.Some? && c.auction.Some? && c.auction.value.seller == signer && c.auction.value.highestBidder.None?
    then Some(Effect(c.(record := Some(c.record.value.(listed := false)), auction := None), [CloseVault(BidVault(id))]))
    else None
  }

  // ----- instructions on one name

  datatype NameOp =
    | Register(owner: Pubkey, name: string, tld: string, years: nat, payment: Payment)
    | Renew(name: string, tld: string, years: nat, payment: Payment)
    | KeeperRenew(name: string, tld: string, years: nat)
    | Claim(claimer: Pubkey, name: string, tld: string, years: nat, referral: Option<Account>)
    | Release(signer: Pubkey)
    | Give(signer: Pubkey, newOwner: Pubkey)
    | Delegate(signer: Pubkey, controller: Option<Pubkey>)
    | Lock(signer: Pubkey, lock: bool)
    | Write(signer: Pubkey, nft: Option<NftAccount>, key: string, value: Option<string>)
    | Resolver(signer: Pubkey, nft: Option<NftAccount>, resolver: Option<Pubkey>)
    | Hosting(signer: Pubkey, nft: Option<NftAccount>, hosting: Option<string>)
    | Tokenize(signer: Pubkey, name: string, mint: Pubkey)
    | Redeem(holding: NftAccount)
    | OpenListing(signer: Pubkey, price: U64, duration: int)
    | Reprice(signer: Pubkey, price: U64, duration: int)
    | CloseListing(signer: Pubkey)
    | Buy(buyer: Pubkey, expectedPrice: U64)
    | OpenAuction(signer: Pubkey, reserve: U64, minIncrement: U64, duration: int)
    | PlaceBid(bidder: Pubkey, amount: U64)
    | Settle
    | CallOff(signer: Pubkey)

  /** Operations that sell a term. */
  predicate TermOp(op: NameOp) {
    op.Register? || op.Renew? || op.KeeperRenew? || op.Claim?
  }

  predicate ListingOp(op: NameOp) {
    op.OpenListing? || op.Reprice? || op.CloseListing? || op.Buy?
  }

  predicate AuctionOp(op: NameOp) {
    op.OpenAuction? || op.PlaceBid? || op.Settle? || op.CallOff?
  }

  /** Operations on the record itself, free of charge. */
  predicate RecordOp(op: NameOp) {
    !TermOp(op) && !ListingOp(op) && !AuctionOp(op)
  }

  function Perform(e: Env, id: NameId, c: Cell, op: NameOp): Option<Effect> {
    match op
    case Register(owner, name, tld, years, payment) => RegisterName(e, id, c, owner, name, tld, years, payment)
    case Renew(name, tld, years, payment) => RenewName(e, id, c, name, tld, years, payment)
    case KeeperRenew(name, tld, years) => AutoRenew(e, id, c, name, tld, years)
    case Claim(claimer, name, tld, years, referral) => ClaimExpired(e, id, c, claimer, name, tld, years, referral)
    case Release(signer) => BurnName(c, signer)
    case Give(signer, newOwner) => TransferName(c, signer, newOwner)
    case Delegate(signer, controller) => SetController(c, signer, controller)
    case Lock(signer, lock) => LockTransfer(c, signer, lock)
    case Write(signer, nft, key, value) => UpdateRecord(c, signer, nft, key, value)
    case Resolver(signer, nft, resolver) => SetResolver(c, signer, nft, resolver)
    case Hosting(signer, nft, hosting) => SetHosting(c, signer, nft, hosting)
    case Tokenize(signer, name, mint) => TokenizeName(id, c, signer, name, mint)
    case Redeem(holding) => RedeemName(c, holding)
    case OpenListing(signer, price, duration) => ListName(e, c, signer, price, duration)
    case Reprice(signer, price, duration) => UpdateListing(e, c, signer, price, duration)
    case CloseListing(signer) => CancelListing(e, c, signer)
    case Buy(buyer, expectedPrice) => BuyName(e, c, buyer, expectedPrice)
    case OpenAuction(signer, reserve, minIncrement, duration) => StartAuction(e, id, c, signer, reserve, minIncrement, duration)
    case PlaceBid(bidder, amount) => Bid(e, id, c, bidder, amount)
    case Settle => SettleAuction(e, id, c)
    case CallOff(signer) => CancelAuction(id, c, signer)
  }

  // ----- the whole state

  datatype State = State(
    now: int, config: Config,
    records: map<NameId, NameRecord>, listings: map<NameId, Listing>, auctions: map<NameId, Auction>,
    offers: map<(NameId, Pubkey), Offer>, reverses: map<Pubkey, Reverse>,
    bank: Bank)

  function EnvOf(s: State): Env {
    Env(s.now, s.config)
  }

  function CellOf(s: State, id: NameId): Cell {
    Cell(Lookup(s.records, id), Lookup(s.listings, id), Lookup(s.auctions, id))
  }

  function PutCell(s: State, id: NameId, c: Cell): State {
    s.(records := Put(s.records, id, c.record), listings := Put(s.listings, id, c.listing), auctions := Put(s.auctions, id, c.auction))
  }

  function Paid(s: State, moves: seq<Move>): Option<State> {
    var bank :- MakeMoves(s.bank, moves);
    Some(s.(bank := bank))
  }

  datatype Instruction =
    | OnName(id: NameId, op: NameOp)
    | WrapSubdomain(signer: Pubkey, parent: NameId, name: string, owner: Pubkey)
    | RevokeSubdomain(signer: Pubkey, parent: NameId, child: NameId)
    | SetReverse(signer: Pubkey, id: NameId, name: string)
    | MakeOffer(buyer: Pubkey, id: NameId, amount: U64, duration: int)
    | AcceptOffer(signer: Pubkey, id: NameId, buyer: Pubkey)
    | CancelOffer(signer: Pubkey, id: NameId, buyer: Pubkey, shown: Option<NameId>)
    | BuybackBurn(keeper: Pubkey, amount: U64)
    | Configure(config: Config)
    | Send(payment: Move)
    | Tick(seconds: nat)

  function OnNameStep(s: State, id: NameId, op: NameOp): Option<State> {
    var effect :- Perform(EnvOf(s), id, CellOf(s, id), op);
    Paid(PutCell(s, id, effect.cell), effect.moves)
  }

  function WrapStep(s: State, signer: Pubkey, parent: NameId, name: string, owner: Pubkey): Option<State> {
    WrapAt(s, signer, parent, Subdomain(parent, name), name, owner)
  }

  /** Create the subdomain record stored under `child`. */
  function WrapAt(s: State, signer: Pubkey, parent: NameId, child: NameId, name: string, owner: Pubkey): Option<State> {
    if parent !in s.records then None else
    var p := s.records[parent];
    if p.owner == signer && Unbound(p) && s.now <= p.expiresAt && ValidLabel(name) && p.depth + 1 <= MAX_SUBDOMAIN_DEPTH && child !in s.records
    then Some(s.(records := s.records[child := NewSubdomain(owner, s.now, p, parent)]))
    else None
  }

  function RevokeStep(s: State, signer: Pubkey, parent: NameId, child: NameId): Option<State> {
    if parent in s.records && child in s.records
       && s.records[parent].owner == signer && s.records[child].parent == Some(parent) && s.records[child].nftMint.None?
    then Some(s.(records := s.records - {child}))
    else None
  }

  function ReverseStep(s: State, signer: Pubkey, id: NameId, name: string): Option<State> {
    if id !in s.records || id != TopLevel(name, s.records[id].tld) then None else ReverseAt(s, signer, id, name)
  }

  /** Point the signer's reverse record at a record it owns, whose name was verified. */
  function ReverseAt(s: State, signer: Pubkey, id: NameId, name: string): Option<State> {
    if id !in s.records then None else
    var r := s.records[id];
    if r.owner == signer && Unbound(r) && r.parent.None?
    then Some(s.(records := s.records[id := r.(reverseSet := true)], reverses := s.reverses[signer := Reverse(id, name, r.tld)]))
    else None
  }

  function MakeOfferStep(s: State, buyer: Pubkey, id: NameId, amount: nat, duration: int): Option<State> {
    if id in s.records && (id, buyer) !in s.offers && duration > 0 && s.now + duration <= I64_MAX
    then Paid(s.(offers := s.offers[(id, buyer) := Offer(amount, s.now + duration)]),
              [PayLamports(Wallet(buyer), OfferEscrow(id, buyer), amount)])
    else None
  }

  function AcceptMoves(c: Config, id: NameId, owner: Pubkey, buyer: Pubkey, amount: nat): seq<Move> {
    [DebitLamports(OfferEscrow(id, buyer), Wallet(owner), SatSub(amount, SaleFee(c, amount))),
     DebitLamports(OfferEscrow(id, buyer), Wallet(c.solTreasury), SaleFee(c, amount)),
     CloseLamports(OfferEscrow(id, buyer), Wallet(buyer))]
  }

  function AcceptOfferStep(s: State, signer: Pubkey, id: NameId, buyer: Pubkey): Option<State> {
    if !(id in s.records && (id, buyer) in s.offers) then None else
    var r, o := s.records[id], s.offers[(id, buyer)];
    if r.owner == signer && Unbound(r) && s.now <= o.expiresAt && buyer != signer
    then Paid(s.(records := s.records[id := HandedTo(r, buyer)], offers := s.offers - {(id, buyer)}),
              AcceptMoves(s.config, id, signer, buyer, o.amount))
    else None
  }

  function CancelOfferStep(s: State, signer: Pubkey, id: NameId, buyer: Pubkey, shown: Option<NameId>): Option<State> {
    if (id, buyer) !in s.offers || (shown.Some? && shown.value !in s.records) then None else
    var isOwner := shown == Some(id) && s.records[id].owner == signer;
    if signer == buyer || isOwner || s.now > s.offers[(id, buyer)].expiresAt
    then Paid(s.(offers := s.offers - {(id, buyer)}), [CloseLamports(OfferEscrow(id, buyer), Wallet(buyer))])
    else None
  }

  function BuybackStep(s: State, keeper: Pubkey, amount: U64): Option<State> {
    if !SolansEnabled(s.config) || amount == 0 then None else
    var out :- BuybackUsdc(s.config, amount);
    if out == 0 || out > Get(s.bank.payment, s.config.burnVault) then None
    else Paid(s, [PayTokens(s.config.burnVault, Wallet(keeper), out), BurnSolans(Wallet(keeper), amount)])
  }

  /**
   * Payments the registry does not make: anyone may pay into any account, escrows and vaults
   * included, and create a vault's token account, but only the program draws on them.
   */
  predicate Ordinary(m: Move) {
    match m
    case PayLamports(from, _, _) => !from.OfferEscrow?
    case PayTokens(_, _, _) => true
    case PaySolans(from, _, _) => !from.BidVault?
    case BurnSolans(from, _) => !from.BidVault?
    case OpenVault(vault) => vault.BidVault?
    case _ => false
  }

  function Step(s: State, ix: Instruction): Option<State> {
    match ix
    case OnName(id, op) => OnNameStep(s, id, op)
    case WrapSubdomain(signer, parent, name, owner) => WrapStep(s, signer, parent, name, owner)
    case RevokeSubdomain(signer, parent, child) => RevokeStep(s, signer, parent, child)
    case SetReverse(signer, id, name) => ReverseStep(s, signer, id, name)
    case MakeOffer(buyer, id, amount, duration) => MakeOfferStep(s, buyer, id, amount, duration)
    case AcceptOffer(signer, id, buyer) => AcceptOfferStep(s, signer, id, buyer)
    case CancelOffer(signer, id, buyer, shown) => CancelOfferStep(s, signer, id, buyer, shown)
    case BuybackBurn(keeper, amount) => BuybackStep(s, keeper, amount)
    case Configure(config) => if ValidConfig(config) then Some(s.(config := config)) else None
    case Send(payment) => if Ordinary(payment) then Paid(s, [payment]) else None
    case Tick(seconds) => if s.now + seconds <= I64_MAX then Some(s.(now := s.now + seconds)) else None
  }

  function Next(s: State, ix: Instruction): State {
    match Step(s, ix)
    case Some(t) => t
    case None => s
  }

  function Run(s: State, ixs: seq<Instruction>): State
    decreases |ixs|
  {
    if ixs == [] then s else Run(Next(s, ixs[0]), ixs[1..])
  }

  /** A freshly initialised registry, over any balances. */
  ghost predicate Initial(s: State) {
    && ValidConfig(s.config) && 0 <= s.now
    && s.records == map[] && s.listings == map[] && s.auctions == map[] && s.offers == map[] && s.reverses == map[]
    && Total(s.bank.solans) == s.bank.supply <= U64_MAX
  }

  // ----- what an instruction can reach

  /** The one name whose cell an instruction may rewrite. */
  function Touched(ix: Instruction): Option<NameId> {
    match ix
    case OnName(id, _) => Some(id)
    case WrapSubdomain(_, parent, name, _) => Some(Subdomain(parent, name))
    case RevokeSubdomain(_, _, child) => Some(child)
    case SetReverse(_, id, _) => Some(id)
    case AcceptOffer(_, id, _) => Some(id)
    case _ => None
  }

  /** The kinds of payment an instruction on `id` makes. */
  predicate Typical(m: Move, id: NameId) {
    match m
    case PayLamports(from, to, _) => from.Wallet? && to.Wallet?
    case PayTokens(_, _, _) => true
    case PaySolans(from, to, _) => (from.Wallet? && to == BidVault(id)) || (from == BidVault(id) && to.Wallet?)
    case BurnSolans(from, _) => from.Wallet? || from == BidVault(id)
    case OpenVault(vault) => vault == BidVault(id)
    case CloseVault(vault) => vault == BidVault(id)
    case _ => false
  }

  predicate AllTypical(moves: seq<Move>, id: NameId) {
    forall i :: 0 <= i < |moves| ==> Typical(moves[i], id)
  }

  lemma TermMovesTypical(c: Config, name: string, years: nat, payment: Payment, id: NameId)
    requires TermMoves(c, name, years, payment).Some?
    ensures AllTypical(TermMoves(c, name, years, payment).value, id)
    ensures forall i :: 0 <= i < |TermMoves(c, name, years, payment).value| ==>
                          !TouchesSolans(TermMoves(c, name, years, payment).value[i], BidVault(id))
  {
  }

  /** Only term operations, sales, bids and the end of an auction move money. */
  lemma TermTypical(e: Env, id: NameId, c: Cell, op: NameOp)
    requires TermOp(op) && Perform(e, id, c, op).Some?
    ensures AllTypical(Perform(e, id, c, op).value.moves, id)
    ensures forall i :: 0 <= i < |Perform(e, id, c, op).value.moves| ==>
                          !TouchesSolans(Perform(e, id, c, op).value.moves[i], BidVault(id))
  {
    match op
    case Register(_, name, _, years, payment) => TermMovesTypical(e.config, name, years, payment, id);
    case Renew(name, _, years, payment) => TermMovesTypical(e.config, name, years, payment, id);
    case KeeperRenew(name, _, years) => TermMovesTypical(e.config, name, years, InUsdc(c.record.value.owner, None), id);
    case Claim(claimer, name, _, years, referral) => TermMovesTypical(e.config, name, years, InUsdc(claimer, referral), id);
  }

  lemma RecordsAreFree(e: Env, id: NameId, c: Cell, op: NameOp)
    requires RecordOp(op) && Perform(e, id, c, op).Some?
    ensures Perform(e, id, c, op).value.moves == []
  {
  }

  lemma MarketTypical(e: Env, id: NameId, c: Cell, op: NameOp)
    requires (ListingOp(op) || AuctionOp(op)) && Perform(e, id, c, op).Some?
    ensures AllTypical(Perform(e, id, c, op).value.moves, id)
  {
  }

  lemma PerformTypical(e: Env, id: NameId, c: Cell, op: NameOp)
    requires Perform(e, id, c, op).Some?
    ensures AllTypical(Perform(e, id, c, op).value.moves, id)
  {
    if TermOp(op) {
      TermTypical(e, id, c, op);
    } else if RecordOp(op) {
      RecordsAreFree(e, id, c, op);
    } else {
      MarketTypical(e, id, c, op);
    }
  }

  lemma PutCellOther(s: State, id: NameId, c: Cell, other: NameId)
    ensures CellOf(PutCell(s, id, c), id) == c
    ensures other != id ==> CellOf(PutCell(s, id, c), other) == CellOf(s, other)
  {
  }

  /** A name's instruction in terms of its effect on the cell. */
  lemma OnNameIs(s: State, id: NameId, op: NameOp, effect: Option<Effect>)
    requires effect == Perform(EnvOf(s), id, CellOf(s, id), op)
    ensures Step(s, OnName(id, op))
            == if effect.Some? then Paid(PutCell(s, id, effect.value.cell), effect.value.moves) else None
  {
  }

  /** An operation that rewrites only the record. */
  lemma OnRecordIs(s: State, id: NameId, op: NameOp, r: Option<NameRecord>, moves: seq<Move>)
    requires Perform(EnvOf(s), id, CellOf(s, id), op) == Some(Effect(CellOf(s, id).(record := r), moves))
    ensures Step(s, OnName(id, op)) == Paid(s.(records := Put(s.records, id, r)), moves)
  {
    OnNameIs(s, id, op, Perform(EnvOf(s), id, CellOf(s, id), op));
    PutLookup(s.listings, id);
    PutLookup(s.auctions, id);
  }

  /** Everything else about names stays as it was. */
  lemma OtherCellsKept(s: State, ix: Instruction, other: NameId)
    requires Touched(ix) != Some(other)
    ensures CellOf(Next(s, ix), other) == CellOf(s, other)
  {
  }

  /** The clock never runs back, and stands still while a name changes. */
  lemma ClockForward(s: State, ix: Instruction)
    ensures Next(s, ix).now >= s.now
    ensures Touched(ix).Some? ==> Next(s, ix).now == s.now
  {
  }

  /** Every reachable configuration is within the checked bounds. */
  lemma ConfigKept(s: State, ix: Instruction)
    requires ValidConfig(s.config)
    ensures ValidConfig(Next(s, ix).config)
  {
  }
}
