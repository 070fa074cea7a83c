/**
 * Where a documented promise fails: for each failure one concrete run of the registry, or one
 * concrete input, that shows it. The exact conditions are the `Exact` and `Agree` lemmas elsewhere.
 */
module Counterexamples {
  import opened Prelude
  import opened Naming
  import opened Paths
  import opened Sums
  import opened Ledger
  import opened Economics
  import opened Registry
  import opened TreeSafety
  import opened MarketSafety
  import opened AuctionSafety
  import opened OwnershipSafety
  import opened Indexer

  /** Every tier costs 1, all of it for the treasury; no grace period; `$SOLANS` enabled at rate 1. */
  const CONFIG: Config := Config(1, 1, 1, 1, 1, 1, 0, 1, 10, 9, 0, FeeVault(1), FeeVault(2), FeeVault(3), 0, 0, 0, 7, 1, 0)

  /** A fresh registry in which wallets 1 and 2 hold ten payment tokens each, and wallet 3 ten `$SOLANS`. */
  const GENESIS: State := State(0, CONFIG, map[], map[], map[], map[], map[],
                                Bank(map[], map[Wallet(1) := 10, Wallet(2) := 10], map[Wallet(3) := 10], 10))

  const A: NameId := TopLevel("a", "sol")
  const B: NameId := Subdomain(A, "b")

  const REGISTER: Instruction := OnName(A, Register(1, "a", "sol", 1, InUsdc(1, None)))
  const WRAP: Instruction := WrapSubdomain(1, A, "b", 1)
  const RELEASE: Instruction := OnName(A, Release(1))
  const LAPSE: Instruction := Tick(SECONDS_PER_YEAR + 1)
  const TAKEOVER: Instruction := OnName(A, Claim(2, "a", "sol", 1, None))

  lemma GenesisIsInitial()
    ensures Initial(GENESIS) && GENESIS.config == CONFIG
  {
    var solans: Balances := map[Wallet(3) := 10];
    SumRemove(solans, Wallet(3));
    assert solans - {Wallet(3)} == map[];
  }

  lemma Runs(s: State, ix: Instruction, rest: seq<Instruction>)
    ensures Run(s, [ix] + rest) == Run(Next(s, ix), rest)
  {
    assert ([ix] + rest)[1..] == rest;
  }

  lemma RunTwo(s: State, a: Instruction, b: Instruction)
    ensures Run(s, [a, b]) == Next(Next(s, a), b)
  {
    Runs(s, a, [b]);
    assert [a] + [b] == [a, b];
    Runs(Next(s, a), b, []);
    assert [b] + [] == [b];
  }

  lemma RunThree(s: State, a: Instruction, b: Instruction, c: Instruction)
    ensures Run(s, [a, b, c]) == Next(Next(Next(s, a), b), c)
  {
    Runs(s, a, [b, c]);
    assert [a] + [b, c] == [a, b, c];
    RunTwo(Next(s, a), b, c);
  }

  // ----- steps

  lemma LabelsAreValid()
    ensures ValidLabel("a") && ValidLabel("b") && AllowedTld("sol")
  {
    assert Utf8("a") == [97] && Utf8("b") == [98];
    assert ALLOWED_TLDS[0] == "sol";
  }

  lemma TermCosts(payer: Pubkey)
    ensures TermMoves(CONFIG, "a", 1, InUsdc(payer, None)) == Some(FeeMoves(CONFIG, payer, None, 1))
    ensures FeeSplit(CONFIG, 1) == Split(1, 0, 0, 0)
  {
    assert "a"[0] as int == 97;
    assert Ascii("a") && !Digits("a");
  }

  /** One year costs the payer one token. */
  lemma TermIsPaid(bank: Bank, payer: Pubkey, moves: seq<Move>)
    requires Get(bank.payment, Wallet(payer)) >= 1 && moves == FeeMoves(CONFIG, payer, None, 1)
    ensures MakeMoves(bank, moves).Some?
            && Get(MakeMoves(bank, moves).value.payment, Wallet(payer)) == Get(bank.payment, Wallet(payer)) - 1
            && (forall w :: w != payer ==> Get(MakeMoves(bank, moves).value.payment, Wallet(w)) == Get(bank.payment, Wallet(w)))
            && MakeMoves(bank, moves).value.solans == bank.solans
  {
    TermCosts(payer);
    var m, n := PayTokens(Wallet(payer), FeeVault(2), 0), PayTokens(Wallet(payer), FeeVault(3), 0);
    var o := PayTokens(Wallet(payer), FeeVault(1), 1);
    ThreeMoves(bank, m, n, o);
    assert moves == [m, n] + [o];
  }

  lemma Registers(s: State)
    requires s.config == CONFIG && A !in s.records && Get(s.bank.payment, Wallet(1)) >= 1 && 0 <= s.now <= SECONDS_PER_YEAR
    ensures var t := Next(s, REGISTER);
            && Step(s, REGISTER).Some?
            && t == s.(records := s.records[A := NewTopLevel(1, "sol", s.now, s.now + SECONDS_PER_YEAR)], bank := t.bank)
            && Get(t.bank.payment, Wallet(1)) == Get(s.bank.payment, Wallet(1)) - 1
            && Get(t.bank.payment, Wallet(2)) == Get(s.bank.payment, Wallet(2))
            && t.bank.solans == s.bank.solans
  {
    var r, moves := NewTopLevel(1, "sol", s.now, s.now + SECONDS_PER_YEAR), FeeMoves(CONFIG, 1, None, 1);
    RegistrationGranted(EnvOf(s), CellOf(s, A), r, moves);
    TermIsPaid(s.bank, 1, moves);
    OnRecordIs(s, A, REGISTER.op, Some(r), moves);
  }

  lemma RegistrationGranted(e: Env, c: Cell, r: NameRecord, moves: seq<Move>)
    requires e.config == CONFIG && c.record.None? && 0 <= e.now <= SECONDS_PER_YEAR
    requires r == NewTopLevel(1, "sol", e.now, e.now + SECONDS_PER_YEAR) && moves == FeeMoves(CONFIG, 1, None, 1)
    ensures Perform(e, A, c, REGISTER.op) == Some(Effect(c.(record := Some(r)), moves))
  {
    LabelsAreValid();
    TermCosts(1);
  }

  /** Wallet 1 holds `a.sol` from clock 0. */
  lemma Registered()
    ensures var t := Next(GENESIS, REGISTER);
            && Step(GENESIS, REGISTER).Some?
            && t == GENESIS.(records := map[A := NewTopLevel(1, "sol", 0, SECONDS_PER_YEAR)], bank := t.bank)
            && Get(t.bank.payment, Wallet(1)) == 9 && Get(t.bank.payment, Wallet(2)) == 10
            && t.bank.solans == map[Wallet(3) := 10]
  {
    Registers(GENESIS);
  }

  lemma Wrapped()
    ensures var s := Next(GENESIS, REGISTER);
            && Step(s, WRAP).Some?
            && Next(s, WRAP) == s.(records := s.records[B := NewSubdomain(1, 0, s.records[A], A)])
  {
    Registered();
    LabelsAreValid();
  }

  // ----- burning and registering again within one second

  /** The parent is burned and registered again at once: its old child still resolves. */
  lemma SameSecondRevival()
    ensures var s := Run(GENESIS, [REGISTER, WRAP]);
            var t := Run(s, [RELEASE, Tick(0), REGISTER]);
            && Step(s, RELEASE).Some? && A !in Next(s, RELEASE).records
            && A in t.records && Resolves(t, B)
  {
    var s := Next(Next(GENESIS, REGISTER), WRAP);
    RunTwo(GENESIS, REGISTER, WRAP);
    Registered();
    Wrapped();
    RunThree(s, RELEASE, Tick(0), REGISTER);
    Released(s);
    Registers(Next(Next(s, RELEASE), Tick(0)));
  }

  lemma Released(s: State)
    requires A in s.records && s.records[A].owner == 1 && Unbound(s.records[A]) && 0 <= s.now <= SECONDS_PER_YEAR
    ensures Step(s, RELEASE).Some? && Next(s, RELEASE) == s.(records := s.records - {A})
    ensures Next(Next(s, RELEASE), Tick(0)) == Next(s, RELEASE)
  {
    OnRecordIs(s, A, RELEASE.op, None, []);
  }

  // ----- the market interlock

  lemma Takes(s: State)
    requires s.config == CONFIG && Get(s.bank.payment, Wallet(2)) >= 1
    requires A in s.records && s.records[A].parent.None? && s.records[A].expiresAt == SECONDS_PER_YEAR && s.now == SECONDS_PER_YEAR + 1
    ensures var t := Next(s, TAKEOVER);
            && Step(s, TAKEOVER).Some?
            && t == s.(records := s.records[A := NewTopLevel(2, s.records[A].tld, s.now, s.now + SECONDS_PER_YEAR)], bank := t.bank)
            && t.bank.solans == s.bank.solans
  {
    var r, moves := NewTopLevel(2, s.records[A].tld, s.now, s.now + SECONDS_PER_YEAR), FeeMoves(CONFIG, 2, None, 1);
    TakeoverGranted(EnvOf(s), CellOf(s, A), r, moves);
    TermIsPaid(s.bank, 2, moves);
    OnRecordIs(s, A, TAKEOVER.op, Some(r), moves);
  }

  lemma TakeoverGranted(e: Env, c: Cell, r: NameRecord, moves: seq<Move>)
    requires e.config == CONFIG && e.now == SECONDS_PER_YEAR + 1
    requires c.record.Some? && c.record.value.parent.None? && c.record.value.expiresAt == SECONDS_PER_YEAR
    requires r == NewTopLevel(2, c.record.value.tld, e.now, e.now + SECONDS_PER_YEAR) && moves == FeeMoves(CONFIG, 2, None, 1)
    ensures Perform(e, A, c, TAKEOVER.op) == Some(Effect(c.(record := Some(r)), moves))
  {
    LabelsAreValid();
    TermCosts(2);
  }

  lemma Lists(s: State, id: NameId)
    requires id in s.records && s.records[id].owner == 1 && Unbound(s.records[id]) && !s.records[id].transferLocked
    requires id !in s.listings && 0 <= s.now <= SECONDS_PER_YEAR
    ensures var ix := OnName(id, OpenListing(1, 5, 3 * SECONDS_PER_YEAR));
            && Step(s, ix).Some?
            && Next(s, ix) == s.(records := s.records[id := s.records[id].(listed := true)],
                                 listings := s.listings[id := Listing(1, 5, s.now + 3 * SECONDS_PER_YEAR)])
  {
    PutLookup(s.auctions, id);
    assert MakeMoves(s.bank, []) == Some(s.bank);
  }

  const LIST: Instruction := OnName(A, OpenListing(1, 5, 3 * SECONDS_PER_YEAR))

  lemma Lapses(s: State)
    requires s.now == 0
    ensures Next(s, LAPSE) == s.(now := SECONDS_PER_YEAR + 1)
  {
  }

  lemma ListedAndLapsed() returns (s: State)
    ensures s == Run(GENESIS, [REGISTER, LIST, LAPSE])
    ensures s.config == CONFIG && s.now == SECONDS_PER_YEAR + 1 && Get(s.bank.payment, Wallet(2)) == 10
    ensures s.records == map[A := NewTopLevel(1, "sol", 0, SECONDS_PER_YEAR).(listed := true)]
    ensures A in s.listings && s.listings[A].seller == 1 && s.auctions == map[]
  {
    RunThree(GENESIS, REGISTER, LIST, LAPSE);
    Registered();
    var first := Next(GENESIS, REGISTER);
    Lists(first, A);
    var second := Next(first, LIST);
    Lapses(second);
    s := Next(second, LAPSE);
  }

  /** A takeover of a listed name leaves the old owner's listing open on the new owner's name. */
  lemma TakeoverStrandsListing()
    ensures var s := Run(GENESIS, [REGISTER, LIST, LAPSE]);
            && Interlocked(CellOf(s, A)) && Step(s, TAKEOVER).Some?
            && !Interlocked(CellOf(Next(s, TAKEOVER), A))
  {
    var s := ListedAndLapsed();
    Takes(s);
  }

  /** Revoking a listed subdomain leaves a listing without a name. */
  lemma RevocationStrandsListing()
    ensures var s := Run(GENESIS, [REGISTER, WRAP, OnName(B, OpenListing(1, 5, 3 * SECONDS_PER_YEAR))]);
            var revoke := RevokeSubdomain(1, A, B);
            && Interlocked(CellOf(s, B)) && Step(s, revoke).Some?
            && !Interlocked(CellOf(Next(s, revoke), B))
  {
    var s := Next(Next(GENESIS, REGISTER), WRAP);
    Registered();
    Wrapped();
    Lists(s, B);
    RunThree(GENESIS, REGISTER, WRAP, OnName(B, OpenListing(1, 5, 3 * SECONDS_PER_YEAR)));
  }

  // ----- auctions

  const OPEN: Instruction := OnName(A, OpenAuction(1, 1, 1, 2 * SECONDS_PER_YEAR))
  const BID: Instruction := OnName(A, PlaceBid(3, 5))
  const SETTLE: Instruction := OnName(A, Settle)
  const DONATION: Move := PaySolans(Wallet(3), BidVault(A), 1)

  /** What is known of the state in which wallet 1's name is up for auction at clock 0. */
  ghost predicate UpForAuction(s: State) {
    && s.now == 0 && s.config == CONFIG && Get(s.bank.payment, Wallet(2)) == 10
    && s.records == map[A := NewTopLevel(1, "sol", 0, SECONDS_PER_YEAR).(listed := true)]
    && s.auctions == map[A := Auction(1, None, 0, 1, 1, 2 * SECONDS_PER_YEAR)]
    && s.bank.solans == map[Wallet(3) := 10, BidVault(A) := 0]
  }

  lemma Auctions(first: State, s: State)
    requires first.now == 0 && first.config == CONFIG && Get(first.bank.payment, Wallet(2)) == 10
    requires first.records == map[A := NewTopLevel(1, "sol", 0, SECONDS_PER_YEAR)]
    requires first.auctions == map[] && first.listings == map[] && first.bank.solans == map[Wallet(3) := 10]
    requires s == Next(first, OPEN)
    ensures UpForAuction(s)
  {
    AuctionGranted(EnvOf(first), CellOf(first, A));
    OnNameIs(first, A, OPEN.op, Perform(EnvOf(first), A, CellOf(first, A), OPEN.op));
    OneMove(first.bank, OpenVault(BidVault(A)));
  }

  lemma Auctioned() returns (s: State)
    ensures s == Run(GENESIS, [REGISTER, OPEN]) && UpForAuction(s)
  {
    RunTwo(GENESIS, REGISTER, OPEN);
    Registered();
    s := Next(Next(GENESIS, REGISTER), OPEN);
    Auctions(Next(GENESIS, REGISTER), s);
  }

  lemma AuctionGranted(e: Env, c: Cell)
    requires e == Env(0, CONFIG) && c == Cell(Some(NewTopLevel(1, "sol", 0, SECONDS_PER_YEAR)), None, None)
    ensures Perform(e, A, c, OPEN.op)
            == Some(Effect(Cell(Some(c.record.value.(listed := true)), None, Some(Auction(1, None, 0, 1, 1, 2 * SECONDS_PER_YEAR))), [OpenVault(BidVault(A))]))
  {
  }

  lemma Bids(s: State, t: State)
    requires UpForAuction(s) && t == Next(s, BID)
    ensures t.records == s.records && t.now == s.now && t.config == s.config && t.bank.payment == s.bank.payment
    ensures t.auctions == map[A := Auction(1, Some(3), 5, 1, 1, 2 * SECONDS_PER_YEAR)]
    ensures VaultOf(t.bank, A) == 5
  {
    var c, pay := CellOf(s, A), PaySolans(Wallet(3), BidVault(A), 5);
    BidGranted(EnvOf(s), c);
    OnNameIs(s, A, BID.op, Perform(EnvOf(s), A, c, BID.op));
    OneMove(s.bank, pay);
    PutLookup(s.records, A);
    PutLookup(s.listings, A);
  }

  lemma BidGranted(e: Env, c: Cell)
    requires e == Env(0, CONFIG) && c.auction == Some(Auction(1, None, 0, 1, 1, 2 * SECONDS_PER_YEAR))
    ensures Perform(e, A, c, BID.op)
            == Some(Effect(c.(auction := Some(Auction(1, Some(3), 5, 1, 1, 2 * SECONDS_PER_YEAR))), [PaySolans(Wallet(3), BidVault(A), 5)]))
  {
    assert BidMoves(A, c.auction.value, 3, 5) == [PaySolans(Wallet(3), BidVault(A), 5)];
  }

  lemma {:induction false} RunOn(s: State, a: seq<Instruction>, b: seq<Instruction>)
    ensures Run(s, a + b) == Run(Run(s, a), b)
    decreases |a|
  {
    if a == [] {
      assert a + b == b;
    } else {
      assert (a + b)[0] == a[0] && (a + b)[1..] == a[1..] + b;
      RunOn(Next(s, a[0]), a[1..], b);
    }
  }

  lemma ReachableVaults(ixs: seq<Instruction>)
    ensures VaultInv(Run(GENESIS, ixs))
  {
    GenesisIsInitial();
    InitialVaults(GENESIS);
    RunKeepsVaults(GENESIS, ixs);
  }

  const TAKEN_OVER: seq<Instruction> := [REGISTER, OPEN] + [BID, LAPSE] + [TAKEOVER, Tick(SECONDS_PER_YEAR)]

  /** Taken over by wallet 2, after the end of wallet 1's auction, which has a bid of wallet 3. */
  ghost predicate TakenOver(s: State) {
    && s.now == 2 * SECONDS_PER_YEAR + 1 && OwnerOf(s, A) == Some(2)
    && A in s.auctions && s.auctions[A] == Auction(1, Some(3), 5, 1, 1, 2 * SECONDS_PER_YEAR)
    && VaultOf(s.bank, A) == 5
  }

  lemma TakesOver(first: State, third: State, s: State)
    requires UpForAuction(first) && third == Next(Next(first, BID), LAPSE)
    requires s == Next(Next(third, TAKEOVER), Tick(SECONDS_PER_YEAR))
    ensures TakenOver(s)
  {
    Bids(first, Next(first, BID));
    Lapses(Next(first, BID));
    Takes(third);
    Waits(Next(third, TAKEOVER), SECONDS_PER_YEAR);
  }

  lemma Waits(s: State, seconds: nat)
    requires s.now + seconds <= I64_MAX
    ensures Next(s, Tick(seconds)) == s.(now := s.now + seconds)
  {
  }

  lemma RunSix(s: State, a: Instruction, b: Instruction, c: Instruction, d: Instruction, e: Instruction, f: Instruction)
    ensures Run(s, [a, b] + [c, d] + [e, f]) == Next(Next(Next(Next(Run(s, [a, b]), c), d), e), f)
  {
    RunOn(s, [a, b] + [c, d], [e, f]);
    RunOn(s, [a, b], [c, d]);
    RunTwo(Run(s, [a, b]), c, d);
    RunTwo(Next(Next(Run(s, [a, b]), c), d), e, f);
  }

  lemma TakenOverAndOver() returns (s: State)
    ensures s == Run(GENESIS, TAKEN_OVER) && TakenOver(s)
  {
    var first := Auctioned();
    RunSix(GENESIS, REGISTER, OPEN, BID, LAPSE, TAKEOVER, Tick(SECONDS_PER_YEAR));
    var third := Next(Next(first, BID), LAPSE);
    s := Next(Next(third, TAKEOVER), Tick(SECONDS_PER_YEAR));
    TakesOver(first, third, s);
  }

  /** A claim during an open auction: once the auction is over, its settlement takes the name from the new owner, who agreed to nothing. */
  lemma StaleAuctionTakesName()
    ensures var s := Run(GENESIS, TAKEN_OVER);
            && OwnerOf(s, A) == Some(2) && OwnerOf(Next(s, SETTLE), A) == Some(3)
            && StaleSettlement(s, SETTLE, A) && !Consented(s, SETTLE, A)
  {
    var s := TakenOverAndOver();
    ReachableVaults(TAKEN_OVER);
    StaleAuctionSettles(s, A);
    OwnerChangeExact(s, SETTLE, A);
  }

  const DONATED: seq<Instruction> := [REGISTER, OPEN] + [Send(DONATION), Tick(2 * SECONDS_PER_YEAR)]

  /** The auction's end has come, and its vault holds one token that is no bid. */
  ghost predicate Donated(s: State) {
    && s.now == 2 * SECONDS_PER_YEAR && A in s.records
    && A in s.auctions && s.auctions[A] == Auction(1, None, 0, 1, 1, 2 * SECONDS_PER_YEAR)
    && Surplus(s, A) == 1
  }

  lemma Donates(first: State, s: State)
    requires UpForAuction(first) && s == Next(Next(first, Send(DONATION)), Tick(2 * SECONDS_PER_YEAR))
    ensures Donated(s)
  {
    OneMove(first.bank, DONATION);
    VaultDonated(first, DONATION, A);
    Waits(Next(first, Send(DONATION)), 2 * SECONDS_PER_YEAR);
  }

  lemma DonatedAndOver() returns (s: State)
    ensures s == Run(GENESIS, DONATED) && Donated(s)
  {
    var first := Auctioned();
    RunOn(GENESIS, [REGISTER, OPEN], [Send(DONATION), Tick(2 * SECONDS_PER_YEAR)]);
    RunTwo(first, Send(DONATION), Tick(2 * SECONDS_PER_YEAR));
    s := Next(Next(first, Send(DONATION)), Tick(2 * SECONDS_PER_YEAR));
    Donates(first, s);
  }

  /** One token sent to the vault of an auction: when its end has come, and whatever happens later, nobody can settle or call it off. */
  lemma DonationBlocksAuction(later: seq<Instruction>)
    ensures var s := Run(GENESIS, DONATED);
            var t := Run(s, later);
            && A in s.auctions && s.now >= s.auctions[A].endTime
            && A in t.auctions && Step(t, SETTLE).None? && forall signer :: Step(t, OnName(A, CallOff(signer))).None?
  {
    var s := DonatedAndOver();
    ReachableVaults(DONATED);
    DonationBlocks(s, later, A);
  }

  // ----- the index

  const LATE_RENEWAL: Instruction := OnName(A, Renew("a", "sol", 1, InUsdc(1, None)))

  /** After registration and lapse the index still agrees with the chain. */
  lemma Lapsed()
    ensures var s, index := Run(GENESIS, [REGISTER, LAPSE]), ApplyAll(map[], Decoded(Feed(GENESIS, [REGISTER, LAPSE])));
            && ValidConfig(s.config) && AllInterlocked(s) && AllAgree(s, index)
            && s.now == SECONDS_PER_YEAR + 1 && s.config == CONFIG
            && s.records == map[A := NewTopLevel(1, "sol", 0, SECONDS_PER_YEAR)]
            && Get(s.bank.payment, Wallet(1)) == 9 && Get(s.bank.payment, Wallet(2)) == 10
  {
    GenesisIsInitial();
    Registered();
    RunTwo(GENESIS, REGISTER, LAPSE);
    InitialMarkets(GENESIS);
    EmptyIndexAgrees(GENESIS);
    assert ToldRun(GENESIS, [REGISTER, LAPSE]) by {
      assert [REGISTER, LAPSE][1..] == [LAPSE] && [LAPSE][1..] == [];
      assert Told(GENESIS, REGISTER) && Told(Next(GENESIS, REGISTER), LAPSE);
      assert ToldRun(Next(Next(GENESIS, REGISTER), LAPSE), []);
      assert ToldRun(Next(GENESIS, REGISTER), [LAPSE]);
    }
    IndexAgreement(map[], GENESIS, [REGISTER, LAPSE]);
    TwoOrderly();
    InterlockKept(GENESIS, [REGISTER, LAPSE]);
  }

  lemma TwoOrderly()
    ensures OrderlyRun(GENESIS, [REGISTER, LAPSE])
  {
    assert [REGISTER, LAPSE][1..] == [LAPSE] && [LAPSE][1..] == [];
    assert OrderlyRun(Next(Next(GENESIS, REGISTER), LAPSE), []);
    assert OrderlyRun(Next(GENESIS, REGISTER), [LAPSE]);
  }

  lemma Renews(s: State)
    requires s.config == CONFIG && Get(s.bank.payment, Wallet(1)) >= 1
    requires A in s.records && 0 <= s.records[A].expiresAt <= s.now == SECONDS_PER_YEAR + 1
    ensures Step(s, LATE_RENEWAL).Some?
  {
    var r, moves := s.records[A].(expiresAt := s.now + SECONDS_PER_YEAR), FeeMoves(CONFIG, 1, None, 1);
    RenewalGranted(EnvOf(s), CellOf(s, A), r, moves);
    TermIsPaid(s.bank, 1, moves);
    OnRecordIs(s, A, LATE_RENEWAL.op, Some(r), moves);
  }

  lemma RenewalGranted(e: Env, c: Cell, r: NameRecord, moves: seq<Move>)
    requires e.config == CONFIG && e.now == SECONDS_PER_YEAR + 1
    requires c.record.Some? && 0 <= c.record.value.expiresAt <= e.now
    requires r == c.record.value.(expiresAt := e.now + SECONDS_PER_YEAR) && moves == FeeMoves(CONFIG, 1, None, 1)
    ensures Perform(e, A, c, LATE_RENEWAL.op) == Some(Effect(c.(record := Some(r)), moves))
  {
    LabelsAreValid();
    TermCosts(1);
  }

  /** A renewal after the lapse: the index extends from the old expiry, the chain from now. */
  lemma LateRenewalMisleadsIndex()
    ensures var s, index := Run(GENESIS, [REGISTER, LAPSE]), ApplyAll(map[], Decoded(Feed(GENESIS, [REGISTER, LAPSE])));
            && AllAgree(s, index) && Step(s, LATE_RENEWAL).Some?
            && !AllAgree(Next(s, LATE_RENEWAL), Observe(index, s, LATE_RENEWAL))
  {
    Lapsed();
    var s, index := Run(GENESIS, [REGISTER, LAPSE]), ApplyAll(map[], Decoded(Feed(GENESIS, [REGISTER, LAPSE])));
    Renews(s);
    AgreementExact(index, s, LATE_RENEWAL);
  }

  /** A takeover is not decoded: the index keeps showing the old owner. */
  lemma TakeoverMisleadsIndex()
    ensures var s, index := Run(GENESIS, [REGISTER, LAPSE]), ApplyAll(map[], Decoded(Feed(GENESIS, [REGISTER, LAPSE])));
            && AllAgree(s, index) && Step(s, TAKEOVER).Some? && Decode(TAKEOVER).None?
            && !AllAgree(Next(s, TAKEOVER), Observe(index, s, TAKEOVER))
  {
    Lapsed();
    var s, index := Run(GENESIS, [REGISTER, LAPSE]), ApplyAll(map[], Decoded(Feed(GENESIS, [REGISTER, LAPSE])));
    Takes(s);
    AgreementExact(index, s, TAKEOVER);
  }

  // ----- clients

  /** To the TypeScript client `a.b` is a subdomain under `.sol`, to the Rust client a name under `.b`. */
  lemma ClientsReadDifferently()
    ensures ParsePath("a.b", None) == Some(Path(["a", "b"], "sol"))
    ensures RustId("a.b") == TopLevel("a", "b") != IdOf(["a", "b"], "sol")
  {
    LabelsAreValid();
    assert "a.b" == "a" + "." + "b";
    SplitPrepend("a", "b");
    SplitDotless("b");
    LastDotBefore("a", "b");
    assert "a.b"[LastDot("a.b") + 1..] == "b";
    assert |"b"| == 1;
    assert SplitDots("a.b") == ["a"] + ["b"] == ["a", "b"];
    assert IdOf(["a", "b"], "sol") == Subdomain(IdOf(["a", "b"][1..], "sol"), "a");
    assert ["a", "b"][..1] == ["a"];
  }

  const HALF_MAX: U64 := 0x8000_0000_0000_0000

  /** A star, priced 2^63 a year before doubling: the SDK quotes 2^64, the chain charges 2^64 - 1. */
  lemma PricesDiffer()
    ensures var c, star := CONFIG.(price1 := HALF_MAX), "\U{2605}";
            && ValidConfig(c) && ValidLabel(star)
            && SdkPriceForLabel(c, star) == U64_MAX + 1 && PriceForLabel(c, star) == U64_MAX
  {
    var star := "\U{2605}";
    assert star[0] as int == 0x2605;
    assert Utf8(star) == Utf8Char(star[0]) + Utf8(star[1..]);
  }

  /** One lamport moved from an account to itself becomes two. */
  lemma SelfMoveMints(a: Account)
    ensures MoveLamports(map[a := 1], a, a, 1) == Some(map[a := 2])
  {
    var b: Balances := map[a := 1];
    assert b[a := 0][a := 2] == map[a := 2];
  }
}
