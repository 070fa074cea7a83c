/** The `$SOLANS` staking pool: the accumulator, the accounts it touches, and one step per instruction. */
module Staking {
  import opened Prelude

  /** Fixed-point scale of the reward-per-share accumulator (`ACC_SCALE`). */
  const SCALE: int := 1_000_000_000_000

  datatype Pool = Pool(totalStaked: nat, acc: nat, lastBalance: nat)

  datatype Position = Position(amount: nat, debt: nat)

  const NO_POSITION: Position := Position(0, 0)

  /**
   * All accounts the staking instructions read or write. `rewardCap` bounds what the reward
   * vault can ever hold: the supply of the payment mint.
   */
  datatype State = State(
    pool: Pool,
    positions: map<Pubkey, Position>,
    rewardVault: nat,
    stakeVault: nat,
    solansOf: map<Pubkey, nat>,
    rewardsOf: map<Pubkey, nat>,
    rewardCap: U64)

  datatype Op =
    | Deposit(amount: U64)
    | Stake(who: Pubkey, amount: U64)
    | Unstake(who: Pubkey, amount: U64)
    | ClaimRewards(who: Pubkey)

  function Balance(m: map<Pubkey, nat>, who: Pubkey): nat {
    if who in m then m[who] else 0
  }

  function PositionOf(s: State, who: Pubkey): Position {
    if who in s.positions then s.positions[who] else NO_POSITION
  }

  /** What `sync` adds to the accumulator for a vault balance. */
  function Increment(p: Pool, vault: nat): nat {
    if p.totalStaked > 0 then SatSub(vault, p.lastBalance) * SCALE / p.totalStaked else 0
  }

  function SyncPool(p: Pool, vault: nat): Option<Pool> {
    var delta := SatSub(vault, p.lastBalance);
    if p.totalStaked > 0 && delta > 0 && (delta * SCALE > U128_MAX || p.acc + Increment(p, vault) > U128_MAX) then None
    else Some(Pool(p.totalStaked, p.acc + Increment(p, vault), vault))
  }

  /** `floor(amount * acc / SCALE)`, the lifetime reward of `amount` at accumulator `acc`. */
  function Earned(amount: nat, acc: nat): nat {
    amount * acc / SCALE
  }

  function Accrued(p: Pool, amount: nat): Option<nat> {
    if amount * p.acc > U128_MAX then None else Some(Earned(amount, p.acc))
  }

  /** The unclaimed reward in u128; the program then narrows it with `as u64`. */
  function PendingWide(p: Pool, pos: Position): nat {
    SatSub(Earned(pos.amount, p.acc), pos.debt)
  }

  function Pending(p: Pool, pos: Position): Option<nat> {
    var _ :- Accrued(p, pos.amount);
    Some(PendingWide(p, pos) % (U64_MAX + 1))
  }

  /** Sync, then pay `who` what is pending; the shared prefix of the three handlers. */
  function Settle(s: State, who: Pubkey): Option<State> {
    var p :- SyncPool(s.pool, s.rewardVault);
    var due :- Pending(p, PositionOf(s, who));
    if due > s.rewardVault then None
    else Some(s.(
      pool := p,
      rewardVault := s.rewardVault - due,
      rewardsOf := s.rewardsOf[who := Balance(s.rewardsOf, who) + due]))
  }

  /** Give `who` a stake of `amount`, re-base its debt and move the watermark. */
  function Rebase(s: State, who: Pubkey, amount: nat, total: nat): Option<State> {
    var p := s.pool.(totalStaked := total);
    var debt :- Accrued(p, amount);
    Some(s.(
      pool := p.(lastBalance := s.rewardVault),
      positions := s.positions[who := Position(amount, debt)]))
  }

  function StakeStep(s: State, who: Pubkey, amount: nat): Option<State> {
    if amount == 0 then None else
    var t :- Settle(s, who);
    if amount > Balance(t.solansOf, who) then None else
    var u := t.(
      solansOf := t.solansOf[who := Balance(t.solansOf, who) - amount],
      stakeVault := t.stakeVault + amount);
    var held := PositionOf(s, who).amount;
    if u.pool.totalStaked + amount > U64_MAX || held + amount > U64_MAX then None else
    Rebase(u, who, held + amount, u.pool.totalStaked + amount)
  }

  function UnstakeStep(s: State, who: Pubkey, amount: nat): Option<State> {
    if who !in s.positions || s.positions[who].amount < amount then None else
    var t :- Settle(s, who);
    if amount > t.stakeVault then None else
    var u := t.(
      solansOf := t.solansOf[who := Balance(t.solansOf, who) + amount],
      stakeVault := t.stakeVault - amount);
    var held := s.positions[who].amount;
    if u.pool.totalStaked < amount then None else
    Rebase(u, who, held - amount, u.pool.totalStaked - amount)
  }

  function ClaimStep(s: State, who: Pubkey): Option<State> {
    if who !in s.positions then None else
    var t :- Settle(s, who);
    Rebase(t, who, s.positions[who].amount, t.pool.totalStaked)
  }

  /** One transaction. `None` is a revert. Anyone may deposit into the reward vault. */
  function Step(s: State, op: Op): Option<State> {
    match op
    case Deposit(amount) =>
      if s.rewardVault + amount > s.rewardCap then None
      else Some(s.(rewardVault := s.rewardVault + amount))
    case Stake(who, amount) => StakeStep(s, who, amount)
    case Unstake(who, amount) => UnstakeStep(s, who, amount)
    case ClaimRewards(who) => ClaimStep(s, who)
  }

  function Next(s: State, op: Op): State {
    match Step(s, op)
    case Some(t) => t
    case None => s
  }

  function Run(s: State, ops: seq<Op>): State
    decreases |ops|
  {
    if ops == [] then s else Run(Next(s, ops[0]), ops[1..])
  }

  /** The state `init_stake_pool` leaves, over any wallets. */
  predicate Initial(s: State) {
    && s.pool == Pool(0, 0, 0)
    && s.positions == map[]
    && s.rewardVault == 0
    && s.stakeVault == 0
  }
}
