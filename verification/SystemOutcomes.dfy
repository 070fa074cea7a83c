/** What the instructions about no name in particular do: buybacks, configuration, the clock, and outside payments. */
module SystemOutcomes {
  import opened Prelude
  import opened Ledger
  import opened Economics
  import opened Registry
  import opened Payments

  /** What a keeper gets for `amount` of `$SOLANS`, at the undiscounted rate, rounded down. */
  function Reimbursement(c: Config, amount: nat): nat
    requires c.solansRate > 0
  {
    amount * 1_000_000 / c.solansRate
  }

  predicate Buyable(s: State, keeper: Pubkey, amount: nat) {
    && s.config.solansMint != 0 && s.config.solansRate > 0 && amount > 0
    && amount * 1_000_000 <= U128_MAX
    && 0 < Reimbursement(s.config, amount) <= U64_MAX
    && Reimbursement(s.config, amount) <= Get(s.bank.payment, s.config.burnVault)
    && amount <= Get(s.bank.solans, Wallet(keeper)) && amount <= s.bank.supply
  }

  /** A buyback succeeds exactly when it is funded on both sides; the vault pays the keeper, whose `$SOLANS` leave the supply. */
  lemma BuybackIs(s: State, keeper: Pubkey, amount: U64)
    ensures var ix := BuybackBurn(keeper, amount);
            && (Step(s, ix).Some? <==> Buyable(s, keeper, amount))
            && (Step(s, ix).Some? ==>
                  var t, out := Next(s, ix), Reimbursement(s.config, amount);
                  && t == s.(bank := t.bank) && t.bank.lamports == s.bank.lamports && t.bank.supply == s.bank.supply - amount
                  && (forall a :: Get(t.bank.payment, a) == Get(s.bank.payment, a) + Part(a, Wallet(keeper), out) - Part(a, s.config.burnVault, out))
                  && forall a :: Get(t.bank.solans, a) == Get(s.bank.solans, a) - Part(a, Wallet(keeper), amount))
  {
    if s.config.solansRate > 0 {
      FewMoves(s.bank, PayTokens(s.config.burnVault, Wallet(keeper), Reimbursement(s.config, amount)), BurnSolans(Wallet(keeper), amount));
    }
  }

  /** The bounds on a configuration, field by field. */
  predicate Acceptable(c: Config) {
    && 0 < c.minYears && c.minYears <= c.maxYears && c.maxYears < 65_536 && 0 <= c.gracePeriod
    && 0 !in {c.price1, c.price2, c.price3, c.price4, c.price5plus, c.priceNumeric}
    && c.marketplaceFeeBps <= 1_000
    && c.stakingFeeBps + c.referralFeeBps + c.burnFeeBps < 10_000
    && c.solansDiscountBps < 10_000
  }

  lemma ConfigureIs(s: State, config: Config)
    ensures Step(s, Configure(config)) == if Acceptable(config) then Some(s.(config := config)) else None
  {
  }

  lemma TickIs(s: State, seconds: nat)
    ensures Step(s, Tick(seconds)) == if s.now + seconds <= I64_MAX then Some(s.(now := s.now + seconds)) else None
  {
  }

  /** Outsiders can draw on anything but escrows and vaults, within balances; nothing but balances changes. */
  lemma SendIs(s: State, payment: Move)
    ensures Step(s, Send(payment)).Some?
            <==> match payment
                 case PayLamports(from, _, amount) => !from.OfferEscrow? && amount <= Get(s.bank.lamports, from)
                 case PayTokens(from, _, amount) => amount <= Get(s.bank.payment, from)
                 case PaySolans(from, _, amount) => !from.BidVault? && amount <= Get(s.bank.solans, from)
                 case BurnSolans(from, amount) => !from.BidVault? && amount <= Get(s.bank.solans, from) && amount <= s.bank.supply
                 case OpenVault(vault) => vault.BidVault? && vault !in s.bank.solans
                 case _ => false
    ensures Step(s, Send(payment)).Some? ==> Next(s, Send(payment)) == s.(bank := MakeMove(s.bank, payment).value)
  {
    OneMove(s.bank, payment);
  }
}
