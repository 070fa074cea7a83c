/** The registry's configuration: prices, the fee split, and the `$SOLANS` rates. */
module Economics {
  import opened Prelude
  import opened Arith
  import opened Ledger

  const BPS: int := 10_000
  const MAX_FEE_BPS: int := 1_000
  const RATE_SCALE: int := 1_000_000

  datatype Config = Config(
    price1: U64, price2: U64, price3: U64, price4: U64, price5plus: U64, priceNumeric: U64,
    gracePeriod: int, minYears: nat, maxYears: nat,
    solTreasury: Pubkey, marketplaceFeeBps: nat,
    treasury: Account, stakingVault: Account, burnVault: Account,
    stakingFeeBps: nat, referralFeeBps: nat, burnFeeBps: nat,
    solansMint: Pubkey, solansRate: U64, solansDiscountBps: nat)

  /** The bounds `init_config`, `update_config` and `set_solans_params` enforce. */
  predicate ValidConfig(c: Config) {
    && 1 <= c.minYears <= c.maxYears <= 0xFFFF
    && c.gracePeriod >= 0
    && c.price1 > 0 && c.price2 > 0 && c.price3 > 0 && c.price4 > 0 && c.price5plus > 0 && c.priceNumeric > 0
    && c.marketplaceFeeBps <= MAX_FEE_BPS
    && c.stakingFeeBps + c.referralFeeBps + c.burnFeeBps < BPS
    && c.solansDiscountBps < BPS
  }

  // ----- prices

  function PriceForLen(c: Config, len: nat): U64 {
    match len
    case 1 => c.price1
    case 2 => c.price2
    case 3 => c.price3
    case 4 => c.price4
    case _ => c.price5plus
  }

  predicate Ascii(s: string) {
    forall i :: 0 <= i < |s| ==> s[i] as int < 128
  }

  predicate Digits(s: string) {
    forall i :: 0 <= i < |s| ==> '0' <= s[i] <= '9'
  }

  /** On-chain price: the emoji premium saturates at u64. */
  function PriceForLabel(c: Config, name: string): U64 {
    if !Ascii(name) then
      var doubled := 2 * PriceForLen(c, |name|);
      if doubled > U64_MAX then U64_MAX else doubled
    else if |name| <= 4 && Digits(name) then c.priceNumeric
    else PriceForLen(c, |name|)
  }

  /** The SDK's price, in unbounded integers; its digit pattern wants at least one digit. */
  function SdkPriceForLabel(c: Config, name: string): nat {
    if !Ascii(name) then PriceForLen(c, |name|) * 2
    else if |name| <= 4 && name != "" && Digits(name) then c.priceNumeric
    else PriceForLen(c, |name|)
  }

  /** The two prices agree unless the doubled emoji tier overflows u64, or the text is empty, which no label is. */
  lemma PricesAgree(c: Config, name: string)
    ensures SdkPriceForLabel(c, name) == PriceForLabel(c, name)
            <==> if Ascii(name) then name != "" || c.priceNumeric == c.price5plus else 2 * PriceForLen(c, |name|) <= U64_MAX
  {
  }

  lemma PricePositive(c: Config, name: string)
    requires ValidConfig(c)
    ensures PriceForLabel(c, name) > 0
  {
  }

  /** The fee for a term, refused on overflow. */
  function TermFee(c: Config, name: string, years: nat): Option<U64> {
    if PriceForLabel(c, name) * years > U64_MAX then None else Some(PriceForLabel(c, name) * years)
  }

  // ----- the fee split

  datatype Split = Split(treasury: nat, staking: nat, referral: nat, burn: nat)

  function Share(amount: nat, bps: nat): nat {
    amount * bps / BPS
  }

  function FeeSplit(c: Config, amount: nat): Split {
    var staking, referral, burn := Share(amount, c.stakingFeeBps), Share(amount, c.referralFeeBps), Share(amount, c.burnFeeBps);
    Split(SatSub(SatSub(SatSub(amount, staking), referral), burn), staking, referral, burn)
  }

  lemma ShareBound(amount: nat, bps: nat)
    ensures BPS * Share(amount, bps) <= amount * bps < BPS * Share(amount, bps) + BPS
  {
  }

  /** The four shares add up to the fee, no subtraction saturates, and the treasury is never shut out. */
  lemma FeeSplitExact(c: Config, amount: nat)
    requires ValidConfig(c)
    ensures var s := FeeSplit(c, amount);
            && s.treasury + s.staking + s.referral + s.burn == amount
            && s.staking + s.referral + s.burn <= amount
            && (amount > 0 ==> s.treasury >= 1)
  {
    var sum := c.stakingFeeBps + c.referralFeeBps + c.burnFeeBps;
    ShareBound(amount, c.stakingFeeBps);
    ShareBound(amount, c.referralFeeBps);
    ShareBound(amount, c.burnFeeBps);
    Distribute(amount, c.stakingFeeBps, c.referralFeeBps);
    Distribute(amount, c.stakingFeeBps + c.referralFeeBps, c.burnFeeBps);
    TimesMonotone(sum, BPS - 1, amount);
    Distribute(amount, BPS, -1);
  }

  /** The marketplace fee on a sale. */
  function SaleFee(c: Config, price: nat): nat {
    price * c.marketplaceFeeBps / BPS
  }

  lemma SaleFeeBound(c: Config, price: nat)
    requires ValidConfig(c)
    ensures 10 * SaleFee(c, price) <= price
  {
    ShareBound(price, c.marketplaceFeeBps);
    TimesMonotone(c.marketplaceFeeBps, MAX_FEE_BPS, price);
  }

  // ----- `$SOLANS` pay-in and buyback

  predicate SolansEnabled(c: Config) {
    c.solansMint != 0 && c.solansRate > 0
  }

  function SolansFee(c: Config, usdcFee: U64): Option<U64> {
    if usdcFee * c.solansRate > U128_MAX then None else
    var gross := usdcFee * c.solansRate / RATE_SCALE;
    var keep := SatSub(BPS, c.solansDiscountBps);
    if gross * keep > U128_MAX || gross * keep / BPS > U64_MAX then None else Some(gross * keep / BPS)
  }

  function BuybackUsdc(c: Config, solans: U64): Option<U64> {
    if c.solansRate == 0 || solans * RATE_SCALE > U128_MAX || solans * RATE_SCALE / c.solansRate > U64_MAX then None
    else Some(solans * RATE_SCALE / c.solansRate)
  }

  /** Paying a fee in `$SOLANS` and selling the same amount back never returns more than the fee. */
  lemma PayInNeverProfits(c: Config, usdcFee: U64)
    requires SolansFee(c, usdcFee).Some? && BuybackUsdc(c, SolansFee(c, usdcFee).value).Some?
    ensures BuybackUsdc(c, SolansFee(c, usdcFee).value).value <= usdcFee
  {
    var rate := c.solansRate;
    var gross := usdcFee * rate / RATE_SCALE;
    var net := SolansFee(c, usdcFee).value;
    DiscountShrinks(gross, SatSub(BPS, c.solansDiscountBps));
    DivTimes(usdcFee * rate, RATE_SCALE);
    QuotientAtMost(net * RATE_SCALE, rate, usdcFee);
  }

  lemma DiscountShrinks(gross: nat, keep: nat)
    requires keep <= BPS
    ensures gross * keep / BPS <= gross
  {
    TimesMonotone(keep, BPS, gross);
  }

  /** Selling in pieces never extracts more than selling at once. */
  lemma SplitBuybackNeverGains(c: Config, a: U64, b: U64)
    requires a + b <= U64_MAX && BuybackUsdc(c, a + b).Some?
    ensures BuybackUsdc(c, a).Some? && BuybackUsdc(c, b).Some?
    ensures BuybackUsdc(c, a).value + BuybackUsdc(c, b).value <= BuybackUsdc(c, a + b).value
  {
    var rate := c.solansRate;
    var x, y := a * RATE_SCALE, b * RATE_SCALE;
    FloorOfSum(x, y, rate);
    QuotientMonotone(x, x + y, rate);
    QuotientMonotone(y, x + y, rate);
  }

  /** What one buyback pays, times the rate, is covered by what it burns. */
  lemma BuybackCovered(c: Config, solans: U64)
    requires BuybackUsdc(c, solans).Some?
    ensures BuybackUsdc(c, solans).value * c.solansRate <= solans * RATE_SCALE
  {
    DivTimes(solans * RATE_SCALE, c.solansRate);
  }
}
