/**
 * The staking handlers as the program runs them: each works on loaded copies of the accounts,
 * and the copies are written back only when the handler succeeds.
 */
module StakingProgram {
  import opened Prelude
  import opened Staking
  import opened StakingSolvency
  import opened StakingFairness

  /** The pool account while an instruction has it loaded. */
  class StakePool {
    var totalStaked: nat
    var accRewardPerShare: nat
    var lastRewardBalance: nat

    ghost function Value(): Pool
      reads this
    {
      Pool(totalStaked, accRewardPerShare, lastRewardBalance)
    }

    constructor (data: Pool)
      ensures Value() == data
    {
      totalStaked, accRewardPerShare, lastRewardBalance := data.totalStaked, data.acc, data.lastBalance;
    }

    /** Credit new deposits into the per-share value, then move the watermark. */
    method Sync(vault: nat) returns (ok: bool)
      modifies this
      ensures ok <==> SyncPool(old(Value()), vault).Some?
      ensures ok ==> Value() == SyncPool(old(Value()), vault).value
    {
      if totalStaked > 0 {
        var delta := SatSub(vault, lastRewardBalance);
        if delta > 0 {
          if delta * SCALE > U128_MAX { return false; }
          var add := delta * SCALE / totalStaked;
          if accRewardPerShare + add > U128_MAX { return false; }
          accRewardPerShare := accRewardPerShare + add;
        }
      }
      lastRewardBalance := vault;
      return true;
    }

    method AccruedFor(amount: nat) returns (r: Option<nat>)
      ensures r == Accrued(Value(), amount)
    {
      if amount * accRewardPerShare > U128_MAX { return None; }
      return Some(amount * accRewardPerShare / SCALE);
    }

    method PendingFor(pos: Position) returns (r: Option<nat>)
      ensures r == Pending(Value(), pos)
    {
      var accrued := AccruedFor(pos.amount);
      match accrued
      case None => return None;
      case Some(a) => return Some(SatSub(a, pos.debt) % (U64_MAX + 1));
    }
  }

  class Program {
    var pool: Pool
    var positions: map<Pubkey, Position>
    var rewardVault: nat
    var stakeVault: nat
    var solansOf: map<Pubkey, nat>
    var rewardsOf: map<Pubkey, nat>
    const rewardCap: U64

    ghost function Accounts(): State
      reads this
    {
      State(pool, positions, rewardVault, stakeVault, solansOf, rewardsOf, rewardCap)
    }

    /** `ok` reports success; the accounts follow the model and are untouched by a revert. */
    twostate predicate Follows(op: Op, ok: bool)
      reads this
    {
      && (ok <==> Step(old(Accounts()), op).Some?)
      && Accounts() == Next(old(Accounts()), op)
    }

    constructor (solansOf: map<Pubkey, nat>, rewardsOf: map<Pubkey, nat>, rewardCap: U64)
      ensures Initial(Accounts())
    {
      this.pool := Pool(0, 0, 0);
      this.positions := map[];
      this.rewardVault, this.stakeVault := 0, 0;
      this.solansOf, this.rewardsOf, this.rewardCap := solansOf, rewardsOf, rewardCap;
    }

    /** Sync the loaded pool and work out the payout every handler starts with. */
    method SettlePending(loaded: StakePool, staker: Pubkey) returns (due: Option<nat>)
      requires loaded.Value() == pool
      modifies loaded
      ensures due.Some? <==> Settle(Accounts(), staker).Some?
      ensures due.Some? ==> due.value <= rewardVault
      ensures due.Some? ==> Settle(Accounts(), staker).value == Accounts().(
                              pool := loaded.Value(),
                              rewardVault := rewardVault - due.value,
                              rewardsOf := rewardsOf[staker := Balance(rewardsOf, staker) + due.value])
    {
      var synced := loaded.Sync(rewardVault);
      if !synced { return None; }
      due := loaded.PendingFor(if staker in positions then positions[staker] else NO_POSITION);
      if due.Some? && due.value > rewardVault { return None; }
    }

    /** The handler succeeded: pay, re-base the debt, move the watermark and store every account. */
    method WriteBack(loaded: StakePool, staker: Pubkey, amount: nat, debt: nat, due: nat, solans: map<Pubkey, nat>, staked: nat)
      requires due <= rewardVault
      modifies this, loaded
      ensures Accounts() == old(State(
                loaded.Value().(lastBalance := rewardVault - due), positions[staker := Position(amount, debt)],
                rewardVault - due, staked, solans, rewardsOf[staker := Balance(rewardsOf, staker) + due], rewardCap))
    {
      rewardVault := rewardVault - due;
      rewardsOf := rewardsOf[staker := Balance(rewardsOf, staker) + due];
      loaded.lastRewardBalance := rewardVault;
      pool := Pool(loaded.totalStaked, loaded.accRewardPerShare, loaded.lastRewardBalance);
      positions := positions[staker := Position(amount, debt)];
      solansOf, stakeVault := solans, staked;
    }

    method StakeTokens(staker: Pubkey, amount: U64) returns (ok: bool)
      modifies this
      ensures Follows(Stake(staker, amount), ok)
    {
      if amount == 0 { return false; }
      var position := if staker in positions then positions[staker] else NO_POSITION;
      var loaded := new StakePool(pool);
      var pending := SettlePending(loaded, staker);
      if pending.None? { return false; }
      var total, held := loaded.totalStaked + amount, position.amount + amount;
      if amount > Balance(solansOf, staker) || total > U64_MAX || held > U64_MAX { return false; }
      loaded.totalStaked := total;
      var debt := loaded.AccruedFor(held);
      if debt.None? { return false; }
      WriteBack(loaded, staker, held, debt.value, pending.value,
                solansOf[staker := Balance(solansOf, staker) - amount], stakeVault + amount);
      return true;
    }

    method UnstakeTokens(staker: Pubkey, amount: U64) returns (ok: bool)
      modifies this
      ensures Follows(Unstake(staker, amount), ok)
    {
      if staker !in positions || positions[staker].amount < amount { return false; }
      var position := positions[staker];
      var loaded := new StakePool(pool);
      var pending := SettlePending(loaded, staker);
      if pending.None? { return false; }
      if amount > stakeVault { return false; }
      if loaded.totalStaked < amount { return false; }
      loaded.totalStaked := loaded.totalStaked - amount;
      var debt := loaded.AccruedFor(position.amount - amount);
      if debt.None? { return false; }
      WriteBack(loaded, staker, position.amount - amount, debt.value, pending.value,
                solansOf[staker := Balance(solansOf, staker) + amount], stakeVault - amount);
      return true;
    }

    method Claim(staker: Pubkey) returns (ok: bool)
      modifies this
      ensures Follows(ClaimRewards(staker), ok)
    {
      if staker !in positions { return false; }
      var position := positions[staker];
      var loaded := new StakePool(pool);
      var pending := SettlePending(loaded, staker);
      if pending.None? { return false; }
      var debt := loaded.AccruedFor(position.amount);
      if debt.None? { return false; }
      WriteBack(loaded, staker, position.amount, debt.value, pending.value, solansOf, stakeVault);
      return true;
    }

    /** Anyone may pay rewards into the vault, up to the supply of the payment mint. */
    method DepositRewards(amount: U64) returns (ok: bool)
      modifies this
      ensures Follows(Deposit(amount), ok)
    {
      if rewardVault + amount > rewardCap { return false; }
      rewardVault := rewardVault + amount;
      return true;
    }

    method Execute(op: Op) returns (ok: bool)
      modifies this
      ensures Follows(op, ok)
    {
      match op {
        case Deposit(amount) => ok := DepositRewards(amount);
        case Stake(who, amount) => ok := StakeTokens(who, amount);
        case Unstake(who, amount) => ok := UnstakeTokens(who, amount);
        case ClaimRewards(who) => ok := Claim(who);
      }
    }

    /** Any interleaving of transactions, failed ones included, leaves the state the model's run leaves. */
    method ExecuteAll(ops: seq<Op>)
      modifies this
      ensures Accounts() == Run(old(Accounts()), ops)
    {
      for i := 0 to |ops|
        invariant Run(Accounts(), ops[i..]) == Run(old(Accounts()), ops)
      {
        assert ops[i..][0] == ops[i] && ops[i..][1..] == ops[i + 1..];
        var _ := Execute(ops[i]);
      }
      assert ops[|ops|..] == [];
    }

    /** The SDK's quote of a staker's claimable reward, in unbounded integers. */
    method PendingReward(staker: Pubkey) returns (r: nat)
      ensures r == Quote(Accounts(), staker)
    {
      if staker !in positions || positions[staker].amount == 0 { return 0; }
      var accPerShare := pool.acc;
      if pool.totalStaked > 0 {
        var delta := if rewardVault > pool.lastBalance then rewardVault - pool.lastBalance else 0;
        accPerShare := accPerShare + delta * SCALE / pool.totalStaked;
      }
      var accrued := positions[staker].amount * accPerShare / SCALE;
      return if accrued > positions[staker].debt then accrued - positions[staker].debt else 0;
    }
  }

  /** What is pending after crediting every deposit the vault already holds. */
  function Quote(s: State, who: Pubkey): nat {
    PendingWide(s.pool.(acc := s.pool.acc + Increment(s.pool, s.rewardVault)), PositionOf(s, who))
  }

  /** What a claim adds to the staker's wallet. */
  function Paid(s: State, who: Pubkey): int {
    Balance(Next(s, ClaimRewards(who)).rewardsOf, who) - Balance(s.rewardsOf, who)
  }

  /** A claim that succeeds pays exactly the SDK's quote, as long as that fits the payout's u64. */
  lemma QuoteIsPaid(s: State, who: Pubkey)
    requires Step(s, ClaimRewards(who)).Some?
    ensures var paid := Paid(s, who);
            && paid == s.rewardVault - Next(s, ClaimRewards(who)).rewardVault
            && paid == Quote(s, who) % (U64_MAX + 1)
            && (paid == Quote(s, who) <==> Quote(s, who) <= U64_MAX)
  {
    var p := SyncPool(s.pool, s.rewardVault).value;
    assert PendingWide(p, PositionOf(s, who)) == Quote(s, who);
  }

  lemma ClaimPaysQuote(s: State, who: Pubkey)
    requires Step(s, ClaimRewards(who)).Some?
    ensures Paid(s, who) == Quote(s, who) - CutOff(s, ClaimRewards(who), who)
  {
    QuoteIsPaid(s, who);
    Remainder(Quote(s, who));
    assert PendingWide(SyncPool(s.pool, s.rewardVault).value, PositionOf(s, who)) == Quote(s, who);
  }

  lemma QuoteBound(s: State, who: Pubkey, drift: int, slack: nat)
    requires Inv(s, drift) && drift < SCALE * (slack + 1)
    requires SyncPool(s.pool, s.rewardVault).Some?
    ensures Quote(s, who) <= s.rewardVault + slack
  {
    PendingBound(s, who, drift, slack);
    assert PendingWide(SyncPool(s.pool, s.rewardVault).value, PositionOf(s, who)) == Quote(s, who);
  }

  lemma SmallQuoteUncut(s: State, who: Pubkey)
    requires Quote(s, who) <= U64_MAX
    ensures CutOff(s, ClaimRewards(who), who) == 0
  {
    if SyncPool(s.pool, s.rewardVault).Some? {
      assert PendingWide(SyncPool(s.pool, s.rewardVault).value, PositionOf(s, who)) == Quote(s, who);
    }
  }

  /**
   * From a fresh pool on, the quote is at most the vault plus one unit per stake or unstake so
   * far, a successful claim pays it less what the cast cuts off, and nothing is cut while that
   * bound fits a u64.
   */
  lemma ReachableQuoteIsPaid(s: State, past: seq<Op>, who: Pubkey)
    requires Initial(s)
    requires Step(Run(s, past), ClaimRewards(who)).Some?
    ensures var t := Run(s, past);
            && Quote(t, who) <= t.rewardVault + Rebases(s, past)
            && Paid(t, who) == Quote(t, who) - CutOff(t, ClaimRewards(who), who)
            && (t.rewardVault + Rebases(s, past) <= U64_MAX ==> Paid(t, who) == Quote(t, who))
  {
    var t := Run(s, past);
    ReachableInv(s, past);
    TotalDriftBound(s, past);
    SlackOfDrift(TotalDrift(s, past), Rebases(s, past));
    ClaimExact(t, who);
    QuoteBound(t, who, TotalDrift(s, past), Rebases(s, past));
    ClaimPaysQuote(t, who);
    if Quote(t, who) <= U64_MAX {
      SmallQuoteUncut(t, who);
    }
  }
}
