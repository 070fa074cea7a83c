/**
 * What selling a term costs and grants: the price of a label, who pays and receives how much, the
 * record afterwards, and exactly when the instruction succeeds.
 */
module TermOutcomes {
  import opened Prelude
  import opened Naming
  import opened Ledger
  import opened Economics
  import opened Registry
  import opened Payments
  import opened RecordOutcomes

  // ----- the price

  /** The price tier of a length: one to four characters have their own. */
  function Tier(c: Config, n: nat): nat {
    if n == 1 then c.price1 else if n == 2 then c.price2 else if n == 3 then c.price3 else if n == 4 then c.price4 else c.price5plus
  }

  predicate AllDigits(s: string) {
    forall i :: 0 <= i < |s| ==> s[i] in "0123456789"
  }

  predicate HasEmoji(s: string) {
    exists i :: 0 <= i < |s| && s[i] as int >= 128
  }

  /** A year of a label: twice its tier for one with an emoji, the numeric price up to four digits, else its tier. */
  function YearlyPrice(c: Config, name: string): nat {
    if HasEmoji(name) then (if 2 * Tier(c, |name|) <= U64_MAX then 2 * Tier(c, |name|) else U64_MAX)
    else if |name| < 5 && AllDigits(name) then c.priceNumeric
    else Tier(c, |name|)
  }

  lemma PriceIs(c: Config, name: string)
    ensures PriceForLabel(c, name) == YearlyPrice(c, name)
  {
    assert Ascii(name) <==> !HasEmoji(name);
    assert Digits(name) <==> AllDigits(name) by {
      forall i | 0 <= i < |name| ensures '0' <= name[i] <= '9' <==> name[i] in "0123456789" {
        DigitChar(name[i]);
      }
    }
  }

  lemma DigitChar(d: char)
    ensures '0' <= d <= '9' <==> d in "0123456789"
  {
    var digits := "0123456789";
    if '0' <= d <= '9' {
      assert digits[d as int - '0' as int] == d;
    }
  }

  /** A term of `years` in the payment token. */
  function TermPrice(c: Config, name: string, years: nat): nat {
    years * YearlyPrice(c, name)
  }

  /** The `$SOLANS` owed for it: at the rate, less the discount, rounded down twice. */
  function BurnOwed(c: Config, total: nat): nat {
    total * c.solansRate / 1_000_000 * SatSub(10_000, c.solansDiscountBps) / 10_000
  }

  // ----- the charge

  /** What account `a` gets, and pays, of a term sold for `total` payment tokens. */
  function TermFlow(c: Config, payer: Pubkey, referral: Option<Account>, total: nat, a: Account): int {
    var staking, burn, referred := total * c.stakingFeeBps / 10_000, total * c.burnFeeBps / 10_000, total * c.referralFeeBps / 10_000;
    Part(a, c.stakingVault, staking) + Part(a, c.burnVault, burn)
    + (match referral
       case Some(r) => Part(a, r, referred) + Part(a, c.treasury, SatSub(total, staking + burn + referred))
       case None => Part(a, c.treasury, SatSub(total, staking + burn)))
    - Part(a, Wallet(payer), total)
  }

  lemma SharesAre(c: Config, referral: Option<Account>, total: nat, payer: Pubkey, a: Account)
    requires ValidConfig(c)
    ensures Shares(c, referral, FeeSplit(c, total), a) - Part(a, Wallet(payer), total) == TermFlow(c, payer, referral, total, a)
  {
    FeeSplitExact(c, total);
  }

  lemma {:induction false} OnlyTokens(bank: Bank, moves: seq<Move>)
    requires forall i :: 0 <= i < |moves| ==> moves[i].PayTokens?
    requires MakeMoves(bank, moves).Some?
    ensures MakeMoves(bank, moves).value == bank.(payment := MakeMoves(bank, moves).value.payment)
    decreases |moves|
  {
    if moves != [] {
      OnlyTokens(MakeMove(bank, moves[0]).value, moves[1..]);
    }
  }

  /** The bank after a term of `total` was paid for. */
  ghost predicate TermPaid(c: Config, payment: Payment, total: nat, before: Bank, after: Bank) {
    && after.lamports == before.lamports
    && match payment
       case InUsdc(payer, referral) =>
         && after.solans == before.solans && after.supply == before.supply
         && forall a :: Get(after.payment, a) == Get(before.payment, a) + TermFlow(c, payer, referral, total, a)
       case InSolans(payer) =>
         && after.payment == before.payment && after.supply == before.supply - BurnOwed(c, total)
         && forall a :: Get(after.solans, a) == Get(before.solans, a) - Part(a, Wallet(payer), BurnOwed(c, total))
  }

  lemma FeesPaid(c: Config, bank: Bank, payer: Pubkey, referral: Option<Account>, total: nat)
    requires ValidConfig(c) && MakeMoves(bank, FeeMoves(c, payer, referral, total)).Some?
    ensures TermPaid(c, InUsdc(payer, referral), total, bank, MakeMoves(bank, FeeMoves(c, payer, referral, total)).value)
  {
    var moves := FeeMoves(c, payer, referral, total);
    OnlyTokens(bank, moves);
    forall a ensures Get(MakeMoves(bank, moves).value.payment, a) == Get(bank.payment, a) + TermFlow(c, payer, referral, total, a) {
      TokenFlow(bank, moves, a);
      FanOutExact(c, payer, referral, total, a);
      SharesAre(c, referral, total, payer, a);
    }
  }

  lemma BurnPaid(c: Config, bank: Bank, payer: Pubkey, total: nat)
    requires MakeMoves(bank, [BurnSolans(Wallet(payer), BurnOwed(c, total))]).Some?
    ensures TermPaid(c, InSolans(payer), total, bank, MakeMoves(bank, [BurnSolans(Wallet(payer), BurnOwed(c, total))]).value)
  {
    OneMove(bank, BurnSolans(Wallet(payer), BurnOwed(c, total)));
  }

  /** What it takes to pay: for certain, and at least unless the payer itself gets a share. */
  predicate Suffices(c: Config, bank: Bank, payment: Payment, total: nat) {
    && total <= U64_MAX
    && match payment
       case InUsdc(payer, _) => total <= Get(bank.payment, Wallet(payer))
       case InSolans(payer) => CanBurn(c, bank, payer, total)
  }

  predicate CanBurn(c: Config, bank: Bank, payer: Pubkey, total: nat) {
    && c.solansMint != 0 && c.solansRate != 0
    && total * c.solansRate <= U128_MAX
    && total * c.solansRate / 1_000_000 * SatSub(10_000, c.solansDiscountBps) <= U128_MAX
    && BurnOwed(c, total) <= U64_MAX
    && BurnOwed(c, total) <= Get(bank.solans, Wallet(payer)) && BurnOwed(c, total) <= bank.supply
  }

  predicate SharesIn(c: Config, payment: Payment) {
    payment.InUsdc? && (Wallet(payment.payer) in {c.stakingVault, c.burnVault, c.treasury} || payment.referral == Some(Wallet(payment.payer)))
  }

  predicate Needed(c: Config, bank: Bank, payment: Payment, total: nat) {
    total <= U64_MAX && (SharesIn(c, payment) || Suffices(c, bank, payment, total))
  }

  /** How much a list of payments takes in all. */
  function TotalOf(moves: seq<Move>): nat {
    if moves == [] then 0 else (if moves[0].PayTokens? then moves[0].amount else 0) + TotalOf(moves[1..])
  }

  lemma {:induction false} EnoughPaysAll(bank: Bank, moves: seq<Move>, from: Account)
    requires forall i :: 0 <= i < |moves| ==> moves[i].PayTokens? && moves[i].from == from
    requires TotalOf(moves) <= Get(bank.payment, from)
    ensures MakeMoves(bank, moves).Some?
    decreases |moves|
  {
    if moves != [] {
      EnoughPaysAll(MakeMove(bank, moves[0]).value, moves[1..], from);
    }
  }

  lemma FeesTotal(c: Config, payer: Pubkey, referral: Option<Account>, total: nat)
    requires ValidConfig(c)
    ensures TotalOf(FeeMoves(c, payer, referral, total)) == total
    ensures forall i :: 0 <= i < |FeeMoves(c, payer, referral, total)| ==>
                          FeeMoves(c, payer, referral, total)[i].PayTokens? && FeeMoves(c, payer, referral, total)[i].from == Wallet(payer)
  {
    FeeSplitExact(c, total);
    SplitTotal(c, Wallet(payer), referral, FeeSplit(c, total));
  }

  lemma TotalOfTwo(m: Move, rest: seq<Move>)
    requires m.PayTokens?
    ensures TotalOf([m] + rest) == m.amount + TotalOf(rest)
  {
    assert ([m] + rest)[1..] == rest;
  }

  lemma SplitTotal(c: Config, from: Account, referral: Option<Account>, s: Split)
    ensures TotalOf(SplitMoves(c, from, referral, s)) == s.staking + s.burn + s.referral + s.treasury
  {
    var m, n := PayTokens(from, c.stakingVault, s.staking), PayTokens(from, c.burnVault, s.burn);
    var rest := match referral
      case Some(r) => [PayTokens(from, r, s.referral)] + [PayTokens(from, c.treasury, s.treasury)]
      case None => [PayTokens(from, c.treasury, s.treasury + s.referral)] + [];
    assert SplitMoves(c, from, referral, s) == [m] + ([n] + rest);
    TotalOfTwo(m, [n] + rest);
    TotalOfTwo(n, rest);
    match referral
    case Some(r) =>
      TotalOfTwo(PayTokens(from, r, s.referral), [PayTokens(from, c.treasury, s.treasury)]);
      assert [PayTokens(from, c.treasury, s.treasury)] == [PayTokens(from, c.treasury, s.treasury)] + [];
      TotalOfTwo(PayTokens(from, c.treasury, s.treasury), []);
    case None =>
      TotalOfTwo(PayTokens(from, c.treasury, s.treasury + s.referral), []);
  }

  /** The charge of a term goes through. */
  predicate Charges(c: Config, bank: Bank, name: string, years: nat, payment: Payment) {
    var moves := TermMoves(c, name, years, payment);
    moves.Some? && MakeMoves(bank, moves.value).Some?
  }

  lemma FeesExact(c: Config, bank: Bank, payer: Pubkey, referral: Option<Account>, total: U64)
    requires ValidConfig(c)
    ensures total <= Get(bank.payment, Wallet(payer)) ==> MakeMoves(bank, FeeMoves(c, payer, referral, total)).Some?
    ensures MakeMoves(bank, FeeMoves(c, payer, referral, total)).Some? && !SharesIn(c, InUsdc(payer, referral)) ==>
              total <= Get(bank.payment, Wallet(payer))
  {
    var moves := FeeMoves(c, payer, referral, total);
    FeesTotal(c, payer, referral, total);
    if total <= Get(bank.payment, Wallet(payer)) {
      EnoughPaysAll(bank, moves, Wallet(payer));
    }
    if MakeMoves(bank, moves).Some? {
      FeesPaid(c, bank, payer, referral, total);
      assert Get(MakeMoves(bank, moves).value.payment, Wallet(payer))
          == Get(bank.payment, Wallet(payer)) + TermFlow(c, payer, referral, total, Wallet(payer));
    }
  }

  lemma TermMovesAre(c: Config, name: string, years: nat, payment: Payment, total: nat)
    requires total == TermPrice(c, name, years)
    ensures TermMoves(c, name, years, payment)
            == if total > U64_MAX then None else
               match payment
               case InUsdc(payer, referral) => Some(FeeMoves(c, payer, referral, total))
               case InSolans(payer) =>
                 if c.solansMint != 0 && c.solansRate != 0 && total * c.solansRate <= U128_MAX
                    && total * c.solansRate / 1_000_000 * SatSub(10_000, c.solansDiscountBps) <= U128_MAX && BurnOwed(c, total) <= U64_MAX
                 then Some([BurnSolans(Wallet(payer), BurnOwed(c, total))]) else None
  {
    PriceIs(c, name);
    assert PriceForLabel(c, name) * years == total;
  }

  /** A term's charge goes through when the payer can pay it, and not otherwise unless the payer gets some of it back; what it moves. */
  lemma ChargeExact(c: Config, bank: Bank, name: string, years: nat, payment: Payment, total: nat)
    requires ValidConfig(c) && total == TermPrice(c, name, years)
    ensures Suffices(c, bank, payment, total) ==> Charges(c, bank, name, years, payment)
    ensures Charges(c, bank, name, years, payment) ==>
              && Needed(c, bank, payment, total)
              && TermPaid(c, payment, total, bank, MakeMoves(bank, TermMoves(c, name, years, payment).value).value)
  {
    TermMovesAre(c, name, years, payment, total);
    match payment
    case InUsdc(payer, referral) =>
      if total <= U64_MAX {
        FeesExact(c, bank, payer, referral, total);
        if Charges(c, bank, name, years, payment) {
          FeesPaid(c, bank, payer, referral, total);
        }
      }
    case InSolans(payer) =>
      OneMove(bank, BurnSolans(Wallet(payer), BurnOwed(c, total)));
      if Charges(c, bank, name, years, payment) {
        BurnPaid(c, bank, payer, total);
      }
  }

  // ----- the instructions

  /** The name is valid, the key is its own, and the term is within the configured bounds. */
  predicate ForSale(c: Config, id: NameId, name: string, tld: string, years: nat) {
    ValidLabel(name) && tld in ["sol", "chain", "web3"] && id == TopLevel(name, tld) && c.minYears <= years && years <= c.maxYears
  }

  /** Record and payments after an instruction that stores `r` for a term of `total`. */
  ghost predicate Granted(s: State, t: State, id: NameId, r: NameRecord, payment: Payment, total: nat) {
    && t == s.(records := s.records[id := r], bank := t.bank)
    && TermPaid(s.config, payment, total, s.bank, t.bank)
  }

  /** The instruction does what it should when `guard` holds and the term can be paid, and nothing otherwise. */
  ghost predicate Sells(s: State, id: NameId, op: NameOp, guard: bool, r: NameRecord, payment: Payment, total: nat) {
    && (guard && Suffices(s.config, s.bank, payment, total) ==> Step(s, OnName(id, op)).Some?)
    && (Step(s, OnName(id, op)).Some? ==>
          && guard && Needed(s.config, s.bank, payment, total)
          && Granted(s, Next(s, OnName(id, op)), id, r, payment, total))
  }

  lemma SellsIf(s: State, id: NameId, op: NameOp, guard: bool, r: NameRecord, name: string, years: nat, payment: Payment, total: nat)
    requires ValidConfig(s.config) && total == TermPrice(s.config, name, years)
    requires Perform(EnvOf(s), id, CellOf(s, id), op)
             == if guard && TermMoves(s.config, name, years, payment).Some?
                then Some(Effect(CellOf(s, id).(record := Some(r)), TermMoves(s.config, name, years, payment).value)) else None
    ensures Sells(s, id, op, guard, r, payment, total)
  {
    ChargeExact(s.config, s.bank, name, years, payment, total);
    if guard && TermMoves(s.config, name, years, payment).Some? {
      OnRecordIs(s, id, op, Some(r), TermMoves(s.config, name, years, payment).value);
    } else {
      RefusedStep(s, id, op);
    }
  }

  /** The record a term starts with, until `until`. */
  function FreshRecord(owner: Pubkey, tld: string, now: int, until: int): NameRecord {
    NameRecord(owner, None, tld, now, until, [], None, None, false, false, None, None, 0, 0, false)
  }

  lemma RegistrationIs(s: State, id: NameId, owner: Pubkey, name: string, tld: string, years: nat, until: int, guard: bool)
    requires until == s.now + 31_536_000 * years
    requires guard <==> ForSale(s.config, id, name, tld, years) && id !in s.records && until <= I64_MAX
    ensures Registration(EnvOf(s), id, CellOf(s, id), owner, name, tld, years)
            == if guard then Some(FreshRecord(owner, tld, s.now, until)) else None
  {
  }

  /** A registration costs its years at the yearly price and grants exactly them, from now, on a fresh record. */
  lemma RegisterIs(s: State, id: NameId, owner: Pubkey, name: string, tld: string, years: nat, payment: Payment)
    requires ValidConfig(s.config)
    ensures var until := s.now + 31_536_000 * years;
            Sells(s, id, Register(owner, name, tld, years, payment),
                  ForSale(s.config, id, name, tld, years) && id !in s.records && until <= I64_MAX,
                  FreshRecord(owner, tld, s.now, until), payment, TermPrice(s.config, name, years))
  {
    var op, until := Register(owner, name, tld, years, payment), s.now + 31_536_000 * years;
    var guard := ForSale(s.config, id, name, tld, years) && id !in s.records && until <= I64_MAX;
    RegistrationIs(s, id, owner, name, tld, years, until, guard);
    SellsIf(s, id, op, guard, FreshRecord(owner, tld, s.now, until), name, years, payment, TermPrice(s.config, name, years));
  }

  /** The expiry of a record, or 0. */
  function ExpiryOf(s: State, id: NameId): int {
    if id in s.records then s.records[id].expiresAt else 0
  }

  /** Where `years` more take an expiry: from itself, or from now if it has passed. */
  function Later(expiry: int, now: int, years: nat): int {
    (if now < expiry then expiry else now) + 31_536_000 * years
  }

  lemma ExtendedIs(s: State, id: NameId, name: string, tld: string, years: nat)
    ensures var until := Later(ExpiryOf(s, id), s.now, years);
            Extended(EnvOf(s), id, CellOf(s, id), name, tld, years)
            == if id in s.records && ForSale(s.config, id, name, tld, years) && until <= I64_MAX
               then Some(s.records[id].(expiresAt := until)) else None
  {
  }

  /** A renewal costs its years and adds exactly them to the later of expiry and now; nothing else changes. */
  lemma RenewIs(s: State, id: NameId, name: string, tld: string, years: nat, payment: Payment)
    requires ValidConfig(s.config) && id in s.records
    ensures var until := Later(s.records[id].expiresAt, s.now, years);
            Sells(s, id, Renew(name, tld, years, payment), ForSale(s.config, id, name, tld, years) && until <= I64_MAX,
                  s.records[id].(expiresAt := until), payment, TermPrice(s.config, name, years))
  {
    var until := Later(s.records[id].expiresAt, s.now, years);
    ExtendedIs(s, id, name, tld, years);
    SellsIf(s, id, Renew(name, tld, years, payment), ForSale(s.config, id, name, tld, years) && until <= I64_MAX,
            s.records[id].(expiresAt := until), name, years, payment, TermPrice(s.config, name, years));
  }

  /** A keeper's renewal adds exactly one year, within 30 days of expiry or later, and the owner pays the yearly price. */
  lemma KeeperRenewIs(s: State, id: NameId, name: string, tld: string, years: nat)
    requires ValidConfig(s.config) && id in s.records
    ensures var until := Later(s.records[id].expiresAt, s.now, 1);
            Sells(s, id, KeeperRenew(name, tld, years),
                  ForSale(s.config, id, name, tld, years) && years == 1 && until <= I64_MAX && s.now + 2_592_000 >= s.records[id].expiresAt,
                  s.records[id].(expiresAt := until), InUsdc(s.records[id].owner, None), YearlyPrice(s.config, name))
  {
    var until := Later(s.records[id].expiresAt, s.now, 1);
    var guard := ForSale(s.config, id, name, tld, years) && years == 1 && until <= I64_MAX && s.now + 2_592_000 >= s.records[id].expiresAt;
    ExtendedIs(s, id, name, tld, years);
    assert TermPrice(s.config, name, 1) == YearlyPrice(s.config, name);
    if years == 1 {
      SellsIf(s, id, KeeperRenew(name, tld, years), guard, s.records[id].(expiresAt := until), name, 1,
              InUsdc(s.records[id].owner, None), YearlyPrice(s.config, name));
    } else {
      RefusedStep(s, id, KeeperRenew(name, tld, years));
    }
  }

  /** The name lapsed and its grace period is over. */
  predicate Lapsed(s: State, r: NameRecord) {
    r.parent == None && r.expiresAt + s.config.gracePeriod <= I64_MAX && r.expiresAt + s.config.gracePeriod < s.now
  }

  lemma TakeoverIs(s: State, id: NameId, claimer: Pubkey, name: string, tld: string, years: nat, until: int, guard: bool)
    requires id in s.records && until == s.now + 31_536_000 * years
    requires guard <==> ForSale(s.config, id, name, tld, years) && until <= I64_MAX && Lapsed(s, s.records[id])
    ensures Takeover(EnvOf(s), id, CellOf(s, id), claimer, name, tld, years)
            == if guard then Some(FreshRecord(claimer, s.records[id].tld, s.now, until)) else None
  {
  }

  /** A takeover past grace costs its years, grants exactly them, and clears everything of the former owner's. */
  lemma ClaimIs(s: State, id: NameId, claimer: Pubkey, name: string, tld: string, years: nat, referral: Option<Account>)
    requires ValidConfig(s.config) && id in s.records
    ensures var until := s.now + 31_536_000 * years;
            Sells(s, id, Claim(claimer, name, tld, years, referral),
                  ForSale(s.config, id, name, tld, years) && until <= I64_MAX && Lapsed(s, s.records[id]),
                  FreshRecord(claimer, s.records[id].tld, s.now, until), InUsdc(claimer, referral), TermPrice(s.config, name, years))
  {
    var op, until := Claim(claimer, name, tld, years, referral), s.now + 31_536_000 * years;
    var guard := ForSale(s.config, id, name, tld, years) && until <= I64_MAX && Lapsed(s, s.records[id]);
    TakeoverIs(s, id, claimer, name, tld, years, until, guard);
    SellsIf(s, id, op, guard, FreshRecord(claimer, s.records[id].tld, s.now, until), name, years, InUsdc(claimer, referral), TermPrice(s.config, name, years));
  }

  /** Without a record there is nothing to renew or take over. */
  lemma NothingToExtend(s: State, id: NameId, op: NameOp)
    requires id !in s.records && (op.Renew? || op.KeeperRenew? || op.Claim?)
    ensures Step(s, OnName(id, op)).None?
  {
    RefusedStep(s, id, op);
  }
}
