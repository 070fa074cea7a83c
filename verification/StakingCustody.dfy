/** Whose tokens are where: stakes stay their stakers' own, and rewards only move from the vault to wallets. */
module StakingCustody {
  import opened Prelude
  import opened Sums
  import opened Staking
  import opened StakingSolvency

  /** A wallet's `$SOLANS`, in hand and staked. */
  function Property(s: State, w: Pubkey): nat {
    Balance(s.solansOf, w) + PositionOf(s, w).amount
  }

  lemma PropertyStep(s: State, op: Op, w: Pubkey)
    ensures Property(Next(s, op), w) == Property(s, w)
  {
    if ActorOf(op).Some? && Step(s, op).Some? {
      StepShape(s, op);
    }
  }

  /** Over any run, whoever stakes, unstakes or claims: no wallet's tokens, in hand and staked, ever change. */
  lemma {:induction false} PropertyKept(s: State, ops: seq<Op>, w: Pubkey)
    ensures Property(Run(s, ops), w) == Property(s, w)
    decreases |ops|
  {
    if ops != [] {
      PropertyStep(s, ops[0], w);
      PropertyKept(Next(s, ops[0]), ops[1..], w);
    }
  }

  /** `amount` moved between `who`'s wallet and the stake vault, and no other wallet was touched. */
  predicate MovedStake(s: State, t: State, who: Pubkey, w: Pubkey, amount: int) {
    && t.stakeVault == s.stakeVault + amount
    && PositionOf(t, who).amount == PositionOf(s, who).amount + amount
    && t.pool.totalStaked == s.pool.totalStaked + amount
    && Balance(t.solansOf, w) == Balance(s.solansOf, w) - (if w == who then amount else 0)
    && (w != who ==> PositionOf(t, w) == PositionOf(s, w))
  }

  /** A successful stake, a first one or a top-up, takes exactly its amount out of the staker's wallet. */
  lemma StakeTakes(s: State, who: Pubkey, amount: U64, w: Pubkey)
    requires Step(s, Stake(who, amount)).Some?
    ensures MovedStake(s, Next(s, Stake(who, amount)), who, w, amount)
  {
    StepShape(s, Stake(who, amount));
  }

  /** A successful unstake returns exactly its amount to the staker's wallet. */
  lemma UnstakeReturns(s: State, who: Pubkey, amount: U64, w: Pubkey)
    requires Step(s, Unstake(who, amount)).Some?
    ensures MovedStake(s, Next(s, Unstake(who, amount)), who, w, 0 - amount as int)
  {
    StepShape(s, Unstake(who, amount));
  }

  /** A claim moves no stake. */
  lemma ClaimKeepsStakes(s: State, who: Pubkey, w: Pubkey)
    requires Step(s, ClaimRewards(who)).Some?
    ensures MovedStake(s, Next(s, ClaimRewards(who)), who, w, 0)
  {
    StepShape(s, ClaimRewards(who));
  }

  /** A stake succeeds exactly when the wallet holds it, its payout can be made, and the new amounts fit their widths. */
  lemma StakeExact(s: State, who: Pubkey, amount: U64)
    ensures Step(s, Stake(who, amount)).Some?
            <==> && 0 < amount <= Balance(s.solansOf, who)
                 && Payable(s, who)
                 && s.pool.totalStaked + amount <= U64_MAX
                 && PositionOf(s, who).amount + amount <= U64_MAX
                 && (PositionOf(s, who).amount + amount) * SyncPool(s.pool, s.rewardVault).value.acc <= U128_MAX
  {
    SettlesIfPayable(s, who);
  }

  /** Syncing fails exactly when the accumulator's u128 arithmetic overflows. */
  lemma SyncExact(p: Pool, vault: nat)
    ensures var unseen := if vault > p.lastBalance then vault - p.lastBalance else 0;
            SyncPool(p, vault).None?
            <==> p.totalStaked > 0 && unseen > 0
                 && (unseen * 1_000_000_000_000 > U128_MAX || p.acc + unseen * 1_000_000_000_000 / p.totalStaked > U128_MAX)
  {
  }

  // ----- rewards

  /** Anyone may deposit what the supply of the payment mint leaves; only the vault changes. */
  lemma DepositIs(s: State, amount: U64)
    ensures Step(s, Deposit(amount)) == if s.rewardVault + amount <= s.rewardCap then Some(s.(rewardVault := s.rewardVault + amount)) else None
  {
  }

  /** What an instruction pays into the reward vault from outside. */
  function Deposited(s: State, op: Op): nat {
    if op.Deposit? && Step(s, op).Some? then op.amount else 0
  }

  function TotalDeposited(s: State, ops: seq<Op>): nat
    decreases |ops|
  {
    if ops == [] then 0 else Deposited(s, ops[0]) + TotalDeposited(Next(s, ops[0]), ops[1..])
  }

  /** All payment tokens of the pool: the vault's and those paid out to wallets. */
  ghost function RewardTotal(s: State): int {
    s.rewardVault + Sum(s.rewardsOf)
  }

  lemma RewardStep(s: State, op: Op)
    ensures RewardTotal(Next(s, op)) == RewardTotal(s) + Deposited(s, op)
  {
    if ActorOf(op).Some? && Step(s, op).Some? {
      var who, t := ActorOf(op).value, Step(s, op).value;
      StepShape(s, op);
      SumSet(s.rewardsOf, who, Balance(s.rewardsOf, who) + (s.rewardVault - t.rewardVault));
    }
  }

  /** Over any run the vault and the wallets together hold what they held plus what was deposited. */
  lemma {:induction false} RewardsConserved(s: State, ops: seq<Op>)
    ensures RewardTotal(Run(s, ops)) == RewardTotal(s) + TotalDeposited(s, ops)
    decreases |ops|
  {
    if ops != [] {
      RewardStep(s, ops[0]);
      RewardsConserved(Next(s, ops[0]), ops[1..]);
    }
  }
}
