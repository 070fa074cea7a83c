/** Solvency of the staking pool over every run, with the exact allowance the floors cost. */
module StakingSolvency {
  import opened Prelude
  import opened Arith
  import opened Sums
  import opened Staking

  /** What a position is owed at accumulator `acc`, in units of 1/SCALE. */
  function Credit(pos: Position, acc: nat): int {
    pos.amount * acc - SCALE * pos.debt
  }

  /** The part of `amount * acc` that the debt's floor forgets. */
  function Dust(amount: nat, acc: nat): nat {
    amount * acc % SCALE
  }

  ghost function Amounts(positions: map<Pubkey, Position>): map<Pubkey, int> {
    map k | k in positions :: positions[k].amount
  }

  ghost function Credits(positions: map<Pubkey, Position>, acc: nat): map<Pubkey, int> {
    map k | k in positions :: Credit(positions[k], acc)
  }

  ghost predicate DebtsCovered(positions: map<Pubkey, Position>, acc: nat) {
    forall k :: k in positions ==> positions[k].debt <= Earned(positions[k].amount, acc)
  }

  /**
   * The exact books, in units of 1/SCALE: what all stakers are owed differs from the counted
   * vault balance by `drift`, the rounding credit handed out minus the credit forfeited.
   */
  ghost predicate Inv(s: State, drift: int) {
    && s.pool.totalStaked == Sum(Amounts(s.positions))
    && s.stakeVault == s.pool.totalStaked
    && s.pool.lastBalance <= s.rewardVault <= s.rewardCap
    && DebtsCovered(s.positions, s.pool.acc)
    && Sum(Credits(s.positions, s.pool.acc)) == SCALE * s.pool.lastBalance + drift
  }

  function ActorOf(op: Op): Option<Pubkey> {
    match op
    case Deposit(_) => None
    case Stake(who, _) => Some(who)
    case Unstake(who, _) => Some(who)
    case ClaimRewards(who) => Some(who)
  }

  function NewAmount(s: State, op: Op): int {
    match op
    case Deposit(_) => 0
    case Stake(who, amount) => PositionOf(s, who).amount + amount
    case Unstake(who, amount) => PositionOf(s, who).amount - amount
    case ClaimRewards(who) => PositionOf(s, who).amount
  }

  function StakeDelta(op: Op): int {
    match op
    case Deposit(_) => 0
    case Stake(_, amount) => amount
    case Unstake(_, amount) => 0 - amount as int
    case ClaimRewards(_) => 0
  }

  /** Credit nobody gets when a deposit is synced: the floor's remainder, or all of it with no stake. */
  function Unshared(p: Pool, vault: nat): int {
    SCALE * (vault - p.lastBalance) - Increment(p, vault) * p.totalStaked
  }

  /** Credit the `as u64` cast of a payout throws away. */
  function Truncated(p: Pool, pos: Position): nat {
    SCALE * (PendingWide(p, pos) - PendingWide(p, pos) % (U64_MAX + 1))
  }

  /** How one instruction moves the drift. */
  function DriftOf(s: State, op: Op): int {
    match (ActorOf(op), Step(s, op), SyncPool(s.pool, s.rewardVault))
    case (Some(who), Some(t), Some(p)) =>
      Dust(PositionOf(t, who).amount, p.acc) - Dust(PositionOf(s, who).amount, p.acc)
      - Unshared(s.pool, s.rewardVault) - Truncated(p, PositionOf(s, who))
    case _ => 0
  }

  function TotalDrift(s: State, ops: seq<Op>): int
    decreases |ops|
  {
    if ops == [] then 0 else DriftOf(s, ops[0]) + TotalDrift(Next(s, ops[0]), ops[1..])
  }

  /** How many `stake` and `unstake` calls of the run succeed. */
  function Rebases(s: State, ops: seq<Op>): nat
    decreases |ops|
  {
    if ops == [] then 0
    else (if (ops[0].Stake? || ops[0].Unstake?) && Step(s, ops[0]).Some? then 1 else 0) + Rebases(Next(s, ops[0]), ops[1..])
  }

  // ----- arithmetic of one position

  lemma EarnedSplit(amount: nat, acc: nat)
    ensures amount * acc == SCALE * Earned(amount, acc) + Dust(amount, acc)
    ensures 0 <= Dust(amount, acc) < SCALE
  {
  }

  lemma EarnedMonotone(amount: nat, acc: nat, acc': nat)
    requires acc <= acc'
    ensures Earned(amount, acc) <= Earned(amount, acc')
  {
    TimesMonotone(acc, acc', amount);
    QuotientMonotone(acc * amount, acc' * amount, SCALE);
  }

  /** Settling pays exactly the whole units of the credit and keeps its dust. */
  lemma SettleSplitsCredit(pos: Position, p: Pool)
    requires pos.debt <= Earned(pos.amount, p.acc)
    ensures Credit(pos, p.acc) == SCALE * PendingWide(p, pos) + Dust(pos.amount, p.acc)
  {
    EarnedSplit(pos.amount, p.acc);
  }

  lemma CreditGrows(pos: Position, acc: nat, add: nat)
    ensures Credit(pos, acc + add) == Credit(pos, acc) + add * pos.amount
  {
  }

  /** The accumulator never credits more than the deposit it saw. */
  lemma IncrementBound(p: Pool, vault: nat)
    requires p.lastBalance <= vault
    ensures Increment(p, vault) * p.totalStaked <= SCALE * (vault - p.lastBalance)
  {
    if p.totalStaked > 0 {
      var x := (vault - p.lastBalance) * SCALE;
      DivTimes(x, p.totalStaked);
    }
  }

  // ----- one step

  lemma CreditsAfterSync(positions: map<Pubkey, Position>, acc: nat, add: nat)
    ensures Sum(Credits(positions, acc + add)) == Sum(Credits(positions, acc)) + add * Sum(Amounts(positions))
  {
    forall k | k in positions
      ensures Credits(positions, acc + add)[k] == Credits(positions, acc)[k] + add * Amounts(positions)[k]
    {
      CreditGrows(positions[k], acc, add);
    }
    SumLinear(Credits(positions, acc), Amounts(positions), Credits(positions, acc + add), add);
  }

  lemma SyncKeeps(s: State, drift: int)
    requires Inv(s, drift) && SyncPool(s.pool, s.rewardVault).Some?
    ensures var acc := SyncPool(s.pool, s.rewardVault).value.acc;
            && s.pool.acc <= acc
            && DebtsCovered(s.positions, acc)
            && Sum(Credits(s.positions, acc)) == SCALE * s.rewardVault + drift - Unshared(s.pool, s.rewardVault)
            && Unshared(s.pool, s.rewardVault) >= 0
  {
    var add := Increment(s.pool, s.rewardVault);
    CreditsAfterSync(s.positions, s.pool.acc, add);
    IncrementBound(s.pool, s.rewardVault);
    forall k | k in s.positions ensures s.positions[k].debt <= Earned(s.positions[k].amount, s.pool.acc + add) {
      EarnedMonotone(s.positions[k].amount, s.pool.acc, s.pool.acc + add);
    }
  }

  /** What any successful stake, unstake or claim by `who` does to the accounts, `p` being the synced pool. */
  ghost predicate Shape(s: State, op: Op, who: Pubkey, p: Pool, t: State) {
    && NewAmount(s, op) >= 0
    && s.pool.totalStaked + StakeDelta(op) >= 0
    && t.pool == Pool(s.pool.totalStaked + StakeDelta(op), p.acc, t.rewardVault)
    && t.positions == s.positions[who := Position(NewAmount(s, op), Earned(NewAmount(s, op), p.acc))]
    && t.stakeVault == s.stakeVault + StakeDelta(op)
    && t.rewardVault == s.rewardVault - PendingWide(p, PositionOf(s, who)) % (U64_MAX + 1)
    && t.rewardsOf == s.rewardsOf[who := Balance(s.rewardsOf, who) + (s.rewardVault - t.rewardVault)]
    && t.rewardCap == s.rewardCap
    && (forall w :: Balance(t.solansOf, w) == Balance(s.solansOf, w) - (if w == who then StakeDelta(op) else 0))
    && NewAmount(s, op) == PositionOf(s, who).amount + StakeDelta(op)
  }

  ghost predicate Shaped(s: State, op: Op, who: Pubkey) {
    && SyncPool(s.pool, s.rewardVault).Some?
    && Shape(s, op, who, SyncPool(s.pool, s.rewardVault).value, Next(s, op))
  }

  lemma StakeShape(s: State, who: Pubkey, amount: U64)
    requires Step(s, Stake(who, amount)).Some?
    ensures Shaped(s, Stake(who, amount), who)
  {
  }

  lemma UnstakeShape(s: State, who: Pubkey, amount: U64)
    requires Step(s, Unstake(who, amount)).Some?
    ensures Shaped(s, Unstake(who, amount), who)
  {
  }

  lemma ClaimShape(s: State, who: Pubkey)
    requires Step(s, ClaimRewards(who)).Some?
    ensures Shaped(s, ClaimRewards(who), who)
  {
  }

  lemma StepShape(s: State, op: Op)
    requires Step(s, op).Some? && ActorOf(op).Some?
    ensures SyncPool(s.pool, s.rewardVault).Some?
    ensures Shape(s, op, ActorOf(op).value, SyncPool(s.pool, s.rewardVault).value, Step(s, op).value)
  {
    match op
    case Stake(who, amount) => StakeShape(s, who, amount);
    case Unstake(who, amount) => UnstakeShape(s, who, amount);
    case ClaimRewards(who) => ClaimShape(s, who);
  }

  /** Replacing one position moves the total credit by the difference. */
  lemma ReplacePosition(positions: map<Pubkey, Position>, who: Pubkey, pos: Position, acc: nat)
    ensures var before := if who in positions then positions[who] else NO_POSITION;
            && Sum(Amounts(positions[who := pos])) == Sum(Amounts(positions)) - before.amount + pos.amount
            && Sum(Credits(positions[who := pos], acc)) == Sum(Credits(positions, acc)) - Credit(before, acc) + Credit(pos, acc)
  {
    assert Amounts(positions[who := pos]) == Amounts(positions)[who := pos.amount];
    assert Credits(positions[who := pos], acc) == Credits(positions, acc)[who := Credit(pos, acc)];
    SumSet(Amounts(positions), who, pos.amount);
    SumSet(Credits(positions, acc), who, Credit(pos, acc));
  }

  /** Re-basing one settled position: the vault pays whole units, the dust changes hands. */
  lemma RebaseCredits(positions: map<Pubkey, Position>, who: Pubkey, amount: nat, p: Pool, vault: nat, drift: int)
    requires DebtsCovered(positions, p.acc)
    requires Sum(Credits(positions, p.acc)) == SCALE * vault + drift
    ensures var before := if who in positions then positions[who] else NO_POSITION;
            var after := positions[who := Position(amount, Earned(amount, p.acc))];
            && DebtsCovered(after, p.acc)
            && Sum(Credits(after, p.acc)) == SCALE * (vault - PendingWide(p, before)) + drift
                                             + Dust(amount, p.acc) - Dust(before.amount, p.acc)
            && Sum(Amounts(after)) == Sum(Amounts(positions)) - before.amount + amount
  {
    var before := if who in positions then positions[who] else NO_POSITION;
    var pos := Position(amount, Earned(amount, p.acc));
    ReplacePosition(positions, who, pos, p.acc);
    SettleSplitsCredit(before, p);
    EarnedSplit(amount, p.acc);
    assert Credit(pos, p.acc) == Dust(amount, p.acc);
  }

  lemma StepKeepsInv(s: State, op: Op, drift: int)
    requires Inv(s, drift)
    ensures Inv(Next(s, op), drift + DriftOf(s, op))
  {
    if Step(s, op).Some? && ActorOf(op).Some? {
      StepShape(s, op);
      ShapeKeepsInv(s, op, ActorOf(op).value, Step(s, op).value, drift);
    }
  }

  lemma ShapeKeepsInv(s: State, op: Op, who: Pubkey, t: State, drift: int)
    requires Inv(s, drift) && SyncPool(s.pool, s.rewardVault).Some?
    requires Shape(s, op, who, SyncPool(s.pool, s.rewardVault).value, t)
    ensures var p := SyncPool(s.pool, s.rewardVault).value;
            Inv(t, drift + Dust(PositionOf(t, who).amount, p.acc) - Dust(PositionOf(s, who).amount, p.acc)
                   - Unshared(s.pool, s.rewardVault) - Truncated(p, PositionOf(s, who)))
  {
    SyncKeeps(s, drift);
    var p := SyncPool(s.pool, s.rewardVault).value;
    RebaseCredits(s.positions, who, NewAmount(s, op), p, s.rewardVault, drift - Unshared(s.pool, s.rewardVault));
  }

  /** The main invariant, for any number of stakers and any interleaving of instructions. */
  lemma {:induction false} Solvency(s: State, ops: seq<Op>, drift: int)
    requires Inv(s, drift)
    ensures Inv(Run(s, ops), drift + TotalDrift(s, ops))
    decreases |ops|
  {
    if ops != [] {
      StepKeepsInv(s, ops[0], drift);
      Solvency(Next(s, ops[0]), ops[1..], drift + DriftOf(s, ops[0]));
    }
  }

  lemma InitialInv(s: State)
    requires Initial(s)
    ensures Inv(s, 0)
  {
  }

  /** The books of every reachable state. */
  lemma ReachableInv(s: State, ops: seq<Op>)
    requires Initial(s)
    ensures Inv(Run(s, ops), TotalDrift(s, ops))
  {
    InitialInv(s);
    Solvency(s, ops, 0);
  }

  // ----- what the allowance amounts to

  lemma WatermarkKept(s: State, op: Op)
    requires s.pool.lastBalance <= s.rewardVault
    ensures Next(s, op).pool.lastBalance <= Next(s, op).rewardVault
  {
    if ActorOf(op).Some? && Step(s, op).Some? {
      StepShape(s, op);
    }
  }

  /** Only a change of stake adds drift: at most the dust of its new amount. */
  lemma DriftOfBound(s: State, op: Op)
    requires s.pool.lastBalance <= s.rewardVault
    ensures Step(s, op).None? || op.Deposit? || op.ClaimRewards? ==> DriftOf(s, op) <= 0
    ensures (op.Stake? || op.Unstake?) && Step(s, op).Some? ==>
              DriftOf(s, op) <= Dust(PositionOf(Next(s, op), ActorOf(op).value).amount, Next(s, op).pool.acc) <= SCALE - 1
  {
    if ActorOf(op).Some? && Step(s, op).Some? {
      StepShape(s, op);
      IncrementBound(s.pool, s.rewardVault);
      var p := SyncPool(s.pool, s.rewardVault).value;
      EarnedSplit(PositionOf(Step(s, op).value, ActorOf(op).value).amount, p.acc);
      EarnedSplit(PositionOf(s, ActorOf(op).value).amount, p.acc);
      assert Unshared(s.pool, s.rewardVault) >= 0 && Truncated(p, PositionOf(s, ActorOf(op).value)) >= 0;
    }
  }

  lemma {:induction false} TotalDriftBound(s: State, ops: seq<Op>)
    requires s.pool.lastBalance <= s.rewardVault
    ensures TotalDrift(s, ops) <= (SCALE - 1) * Rebases(s, ops)
    decreases |ops|
  {
    if ops != [] {
      DriftOfBound(s, ops[0]);
      WatermarkKept(s, ops[0]);
      TotalDriftBound(Next(s, ops[0]), ops[1..]);
    }
  }

  ghost function Pendings(positions: map<Pubkey, Position>, p: Pool): map<Pubkey, int> {
    map k | k in positions :: PendingWide(p, positions[k])
  }

  ghost function Dusts(positions: map<Pubkey, Position>, acc: nat): map<Pubkey, int> {
    map k | k in positions :: Dust(positions[k].amount, acc)
  }

  lemma CreditsSplit(positions: map<Pubkey, Position>, p: Pool)
    requires DebtsCovered(positions, p.acc)
    ensures Sum(Credits(positions, p.acc)) == Sum(Dusts(positions, p.acc)) + SCALE * Sum(Pendings(positions, p))
    ensures Sum(Dusts(positions, p.acc)) >= 0
  {
    forall k | k in positions
      ensures Credits(positions, p.acc)[k] == Dusts(positions, p.acc)[k] + SCALE * Pendings(positions, p)[k]
    {
      SettleSplitsCredit(positions[k], p);
    }
    SumLinear(Dusts(positions, p.acc), Pendings(positions, p), Credits(positions, p.acc), SCALE);
    SumNonNegative(Dusts(positions, p.acc));
  }

  /** Everything claimable right now, summed over all stakers, against the vault. */
  lemma PendingWithinVault(s: State, drift: int)
    requires Inv(s, drift) && SyncPool(s.pool, s.rewardVault).Some?
    ensures SCALE * Sum(Pendings(s.positions, SyncPool(s.pool, s.rewardVault).value)) <= SCALE * s.rewardVault + drift
  {
    SyncKeeps(s, drift);
    CreditsSplit(s.positions, SyncPool(s.pool, s.rewardVault).value);
  }

  /**
   * What all stakers can claim, to the last unit of 1/SCALE; hence the vault covers it exactly when
   * the drift so far is within the undistributed remainder and the positions' dust.
   */
  lemma CoveredExactly(s: State, ops: seq<Op>)
    requires Initial(s) && SyncPool(Run(s, ops).pool, Run(s, ops).rewardVault).Some?
    ensures BooksClose(Run(s, ops), TotalDrift(s, ops))
  {
    ReachableInv(s, ops);
    BooksCloseAt(Run(s, ops), TotalDrift(s, ops));
  }

  /** The claimable total against the vault, the drift, and what nobody can claim. */
  ghost predicate BooksClose(t: State, drift: int) {
    var sync := SyncPool(t.pool, t.rewardVault);
    sync.Some? ==>
      var claimable, spare := Sum(Pendings(t.positions, sync.value)), Spare(t, sync.value);
      && SCALE * claimable == SCALE * t.rewardVault + drift - spare
      && (claimable <= t.rewardVault <==> drift <= spare)
  }

  /** The undistributed remainder and the positions' dust. */
  ghost function Spare(t: State, p: Pool): int {
    Unshared(t.pool, t.rewardVault) + Sum(Dusts(t.positions, p.acc))
  }

  lemma BooksCloseAt(t: State, drift: int)
    requires Inv(t, drift) && SyncPool(t.pool, t.rewardVault).Some?
    ensures BooksClose(t, drift)
  {
    SyncKeeps(t, drift);
    CreditsSplit(t.positions, SyncPool(t.pool, t.rewardVault).value);
  }

  /** All stakers together can claim at most the vault plus `slack`. */
  ghost predicate CoveredUpTo(t: State, slack: int) {
    var sync := SyncPool(t.pool, t.rewardVault);
    sync.Some? ==> Sum(Pendings(t.positions, sync.value)) <= t.rewardVault + slack
  }

  lemma DriftToSlack(t: State, drift: int, slack: int)
    requires Inv(t, drift) && drift < SCALE * (slack + 1)
    ensures CoveredUpTo(t, slack)
  {
    if SyncPool(t.pool, t.rewardVault).Some? {
      PendingWithinVault(t, drift);
    }
  }

  /**
   * In every reachable state the stakers can together claim at most the vault plus one unit
   * per stake or unstake ever made.
   */
  lemma TotalPendingBound(s: State, ops: seq<Op>)
    requires Initial(s)
    ensures CoveredUpTo(Run(s, ops), Rebases(s, ops))
    ensures Run(s, ops).pool.totalStaked == Sum(Amounts(Run(s, ops).positions)) == Run(s, ops).stakeVault
  {
    ReachableInv(s, ops);
    TotalDriftBound(s, ops);
    BoundedDriftCovers(Run(s, ops), TotalDrift(s, ops), Rebases(s, ops));
  }

  lemma BoundedDriftCovers(t: State, drift: int, rebases: nat)
    requires Inv(t, drift) && drift <= (SCALE - 1) * rebases
    ensures CoveredUpTo(t, rebases)
  {
    DriftToSlack(t, drift, rebases);
  }

  /** A stake or unstake that succeeds does so while the accumulator is still zero. */
  predicate AtZero(s: State, op: Op) {
    (op.Stake? || op.Unstake?) && Step(s, op).Some? ==> Next(s, op).pool.acc == 0
  }

  predicate RebasedAtZero(s: State, ops: seq<Op>)
    decreases |ops|
  {
    ops == [] || (AtZero(s, ops[0]) && RebasedAtZero(Next(s, ops[0]), ops[1..]))
  }

  lemma NoDriftStep(s: State, op: Op)
    requires s.pool.lastBalance <= s.rewardVault && AtZero(s, op)
    ensures DriftOf(s, op) <= 0
    ensures Next(s, op).pool.lastBalance <= Next(s, op).rewardVault
  {
    DriftOfBound(s, op);
    WatermarkKept(s, op);
  }

  lemma {:induction false} NoDriftAtZero(s: State, ops: seq<Op>)
    requires s.pool.lastBalance <= s.rewardVault && RebasedAtZero(s, ops)
    ensures TotalDrift(s, ops) <= 0
    decreases |ops|
  {
    if ops != [] {
      NoDriftStep(s, ops[0]);
      NoDriftAtZero(Next(s, ops[0]), ops[1..]);
    }
  }

  // ----- getting out

  /** The payout every handler starts with can be made: it is computable and the vault holds it. */
  predicate Payable(s: State, who: Pubkey) {
    var sync, held := SyncPool(s.pool, s.rewardVault), PositionOf(s, who);
    && sync.Some?
    && held.amount * sync.value.acc <= U128_MAX
    && PendingWide(sync.value, held) % (U64_MAX + 1) <= s.rewardVault
  }

  lemma SettlesIfPayable(s: State, who: Pubkey)
    ensures Settle(s, who).Some? <==> Payable(s, who)
  {
  }

  /** A claim succeeds exactly when the staker has a position and its payout can be made. */
  lemma ClaimExact(s: State, who: Pubkey)
    ensures Step(s, ClaimRewards(who)).Some? <==> who in s.positions && Payable(s, who)
  {
    SettlesIfPayable(s, who);
  }

  /** A staker can withdraw any part of its stake exactly when its pending payout can be made. */
  lemma UnstakeExact(s: State, drift: int, who: Pubkey, amount: U64)
    requires Inv(s, drift)
    ensures Step(s, Unstake(who, amount)).Some?
            <==> who in s.positions && amount <= s.positions[who].amount && Payable(s, who)
  {
    if who in s.positions && amount <= s.positions[who].amount && Payable(s, who) {
      var held, p := s.positions[who].amount, SyncPool(s.pool, s.rewardVault).value;
      SettlesIfPayable(s, who);
      SumDominates(Amounts(s.positions), who);
      TimesMonotone(held - amount, held, p.acc);
      assert Amounts(s.positions)[who] == held;
    }
  }

  /** With less than one unit of drift, no payout can bounce for lack of funds. */
  lemma PayoutCovered(s: State, drift: int, who: Pubkey)
    requires Inv(s, drift) && drift < SCALE
    requires SyncPool(s.pool, s.rewardVault).Some?
    ensures PendingWide(SyncPool(s.pool, s.rewardVault).value, PositionOf(s, who)) <= s.rewardVault
    ensures Payable(s, who) <==> PositionOf(s, who).amount * SyncPool(s.pool, s.rewardVault).value.acc <= U128_MAX
  {
    DriftToSlack(s, drift, 0);
    if who in s.positions {
      SumDominates(Pendings(s.positions, SyncPool(s.pool, s.rewardVault).value), who);
    }
    var x := PendingWide(SyncPool(s.pool, s.rewardVault).value, PositionOf(s, who));
    assert x % (U64_MAX + 1) <= x;
  }

  lemma NoDriftCovers(t: State, drift: int)
    requires Inv(t, drift) && drift <= 0
    ensures CoveredUpTo(t, 0)
  {
    DriftToSlack(t, drift, 0);
  }

  /** Positions opened (or resized) at accumulator zero and then only claimed are exactly solvent. */
  lemma ExactSolvency(s: State, ops: seq<Op>)
    requires Initial(s) && RebasedAtZero(s, ops)
    ensures CoveredUpTo(Run(s, ops), 0)
  {
    ReachableInv(s, ops);
    NoDriftAtZero(s, ops);
    NoDriftCovers(Run(s, ops), TotalDrift(s, ops));
  }

  // ----- the allowance is really needed

  const OVERPROMISING_RUN: seq<Op> := [Stake(1, 3), Deposit(2), Stake(2, 1), Stake(3, 1), Deposit(2)]

  /** The pool, vault and position table of the example, without the wallets. */
  ghost predicate Stands(s: State, total: nat, acc: nat, last: nat, vault: nat, positions: map<Pubkey, Position>) {
    && s.pool == Pool(total, acc, last)
    && s.rewardVault == vault
    && s.positions == positions
    && s.rewardCap >= 10
  }

  ghost predicate Funded(s: State) {
    Balance(s.solansOf, 1) >= 3 && Balance(s.solansOf, 2) >= 1 && Balance(s.solansOf, 3) >= 1
  }

  /** A newcomer's stake when nothing has been deposited since the last sync. */
  lemma NewcomerStakes(s: State, who: Pubkey, amount: U64)
    requires 0 < amount <= Balance(s.solansOf, who) && who !in s.positions
    requires s.pool.totalStaked + amount <= U64_MAX && s.rewardVault <= s.rewardCap
    requires s.pool.lastBalance == s.rewardVault && amount * s.pool.acc <= U128_MAX
    ensures var t := Next(s, Stake(who, amount));
            && t.pool == Pool(s.pool.totalStaked + amount, s.pool.acc, s.rewardVault)
            && t.rewardVault == s.rewardVault && t.rewardCap == s.rewardCap
            && t.positions == s.positions[who := Position(amount, Earned(amount, s.pool.acc))]
            && t.solansOf == s.solansOf[who := Balance(s.solansOf, who) - amount]
  {
    assert Increment(s.pool, s.rewardVault) == 0;
    assert PendingWide(s.pool, NO_POSITION) == 0;
  }

  /** A newcomer's stake that first credits 2 units over 3 staked tokens. */
  lemma NewcomerSyncs(s: State)
    requires Stands(s, 3, 0, 0, 2, map[1 := Position(3, 0)]) && Balance(s.solansOf, 2) >= 1
    ensures Stands(Next(s, Stake(2, 1)), 4, 666_666_666_666, 2, 2, map[1 := Position(3, 0), 2 := Position(1, 0)])
    ensures Next(s, Stake(2, 1)).solansOf == s.solansOf[2 := Balance(s.solansOf, 2) - 1]
  {
    assert SyncPool(s.pool, s.rewardVault) == Some(Pool(3, 666_666_666_666, 2));
    assert PositionOf(s, 2) == NO_POSITION;
    StepShape(s, Stake(2, 1));
  }

  lemma OverpromisedSum(s: State)
    requires Stands(s, 5, 666_666_666_666, 2, 4, map[1 := Position(3, 0), 2 := Position(1, 0), 3 := Position(1, 0)])
    ensures SyncPool(s.pool, s.rewardVault) == Some(Pool(5, 1_066_666_666_666, 4))
    ensures Sum(Pendings(s.positions, Pool(5, 1_066_666_666_666, 4))) == 5
  {
    var p := Pool(5, 1_066_666_666_666, 4);
    assert PendingWide(p, Position(3, 0)) == 3 && PendingWide(p, Position(1, 0)) == 1;
    var w := Pendings(s.positions, p);
    SumRemove(w, 1);
    SumRemove(w - {1}, 2);
    SumRemove(w - {1} - {2}, 3);
    assert w - {1} - {2} - {3} == map[];
  }

  lemma FirstHalf(s: State) returns (t: State)
    requires Initial(s) && Funded(s) && s.rewardCap >= 10
    ensures t == Next(Next(s, Stake(1, 3)), Deposit(2))
    ensures Stands(t, 3, 0, 0, 2, map[1 := Position(3, 0)]) && Balance(t.solansOf, 2) >= 1 && Balance(t.solansOf, 3) >= 1
  {
    NewcomerStakes(s, 1, 3);
    t := Next(Next(s, Stake(1, 3)), Deposit(2));
  }

  lemma SecondHalf(s: State) returns (t: State)
    requires Stands(s, 3, 0, 0, 2, map[1 := Position(3, 0)]) && Balance(s.solansOf, 2) >= 1 && Balance(s.solansOf, 3) >= 1
    ensures t == Next(Next(Next(s, Stake(2, 1)), Stake(3, 1)), Deposit(2))
    ensures Stands(t, 5, 666_666_666_666, 2, 4, map[1 := Position(3, 0), 2 := Position(1, 0), 3 := Position(1, 0)])
  {
    NewcomerSyncs(s);
    var u := Next(s, Stake(2, 1));
    NewcomerStakes(u, 3, 1);
    t := Next(Next(u, Stake(3, 1)), Deposit(2));
  }

  lemma RunFirst(s: State, op: Op, rest: seq<Op>)
    ensures Run(s, [op] + rest) == Run(Next(s, op), rest)
  {
    assert ([op] + rest)[1..] == rest;
  }

  lemma RunFive(s: State, a: Op, b: Op, c: Op, d: Op, e: Op, rest: seq<Op>)
    ensures Run(s, [a, b, c, d, e] + rest) == Run(Next(Next(Next(Next(Next(s, a), b), c), d), e), rest)
  {
    RunFirst(s, a, [b, c, d, e] + rest);
    assert [a] + ([b, c, d, e] + rest) == [a, b, c, d, e] + rest;
    RunFirst(Next(s, a), b, [c, d, e] + rest);
    assert [b] + ([c, d, e] + rest) == [b, c, d, e] + rest;
    var t := Next(Next(s, a), b);
    RunFirst(t, c, [d, e] + rest);
    assert [c] + ([d, e] + rest) == [c, d, e] + rest;
    RunFirst(Next(t, c), d, [e] + rest);
    assert [d] + ([e] + rest) == [d, e] + rest;
    RunFirst(Next(Next(t, c), d), e, rest);
  }

  lemma OverpromiseRuns(s: State, half: State, t: State, rest: seq<Op>)
    requires half == Next(Next(s, Stake(1, 3)), Deposit(2))
    requires t == Next(Next(Next(half, Stake(2, 1)), Stake(3, 1)), Deposit(2))
    ensures Run(s, OVERPROMISING_RUN + rest) == Run(t, rest)
  {
    RunFive(s, Stake(1, 3), Deposit(2), Stake(2, 1), Stake(3, 1), Deposit(2), rest);
  }

  /** Where the five instructions lead, whatever follows them. */
  lemma Overpromise(s: State, rest: seq<Op>) returns (t: State)
    requires Initial(s) && Funded(s) && s.rewardCap >= 10
    ensures Run(s, OVERPROMISING_RUN + rest) == Run(t, rest)
    ensures Stands(t, 5, 666_666_666_666, 2, 4, map[1 := Position(3, 0), 2 := Position(1, 0), 3 := Position(1, 0)])
  {
    var half := FirstHalf(s);
    t := SecondHalf(half);
    OverpromiseRuns(s, half, t, rest);
  }

  /** Five ordinary instructions after which the stakers may claim 5 units from a vault of 4. */
  lemma VaultCanBeOverpromised(s: State)
    requires Initial(s) && Funded(s) && s.rewardCap >= 10
    ensures var t := Run(s, OVERPROMISING_RUN);
            var sync := SyncPool(t.pool, t.rewardVault);
            sync.Some? && Sum(Pendings(t.positions, sync.value)) == 5 && t.rewardVault == 4
  {
    var t := Overpromise(s, []);
    assert OVERPROMISING_RUN + [] == OVERPROMISING_RUN;
    OverpromisedSum(t);
  }

  /** The first two stakers take what they are owed, and the vault is empty. */
  lemma FirstClaim(s: State)
    requires Stands(s, 5, 666_666_666_666, 2, 4, map[1 := Position(3, 0), 2 := Position(1, 0), 3 := Position(1, 0)])
    ensures Stands(Next(s, ClaimRewards(1)), 5, 1_066_666_666_666, 1, 1,
                   map[1 := Position(3, 3), 2 := Position(1, 0), 3 := Position(1, 0)])
  {
    assert SyncPool(s.pool, s.rewardVault) == Some(Pool(5, 1_066_666_666_666, 4));
    assert Payable(s, 1);
    ClaimExact(s, 1);
    StepShape(s, ClaimRewards(1));
  }

  lemma SecondClaim(s: State)
    requires Stands(s, 5, 1_066_666_666_666, 1, 1, map[1 := Position(3, 3), 2 := Position(1, 0), 3 := Position(1, 0)])
    ensures Stands(Next(s, ClaimRewards(2)), 5, 1_066_666_666_666, 0, 0,
                   map[1 := Position(3, 3), 2 := Position(1, 1), 3 := Position(1, 0)])
  {
    assert SyncPool(s.pool, s.rewardVault) == Some(Pool(5, 1_066_666_666_666, 1));
    assert Payable(s, 2);
    ClaimExact(s, 2);
    StepShape(s, ClaimRewards(2));
  }

  lemma ThirdIsStuck(s: State)
    requires Stands(s, 5, 1_066_666_666_666, 0, 0, map[1 := Position(3, 3), 2 := Position(1, 1), 3 := Position(1, 0)])
    ensures Step(s, Unstake(3, 1)).None? && Step(s, ClaimRewards(3)).None?
  {
    assert SyncPool(s.pool, s.rewardVault) == Some(Pool(5, 1_066_666_666_666, 0));
    assert PendingWide(Pool(5, 1_066_666_666_666, 0), Position(1, 0)) == 1;
    assert !Payable(s, 3);
    SettlesIfPayable(s, 3);
  }

  const CLAIMS: seq<Op> := [ClaimRewards(1), ClaimRewards(2)]

  /** Two claims later the third staker can neither claim nor withdraw the token it staked. */
  lemma StakerCanBeLockedIn(s: State)
    requires Initial(s) && Funded(s) && s.rewardCap >= 10
    ensures var t := Run(s, OVERPROMISING_RUN + CLAIMS);
            && 3 in t.positions && t.positions[3].amount == 1
            && Step(t, Unstake(3, 1)).None? && Step(t, ClaimRewards(3)).None?
  {
    var t := Overpromise(s, CLAIMS);
    FirstClaim(t);
    var u := Next(t, ClaimRewards(1));
    SecondClaim(u);
    RunFirst(t, ClaimRewards(1), [ClaimRewards(2)]);
    RunFirst(u, ClaimRewards(2), []);
    assert [ClaimRewards(1)] + [ClaimRewards(2)] == CLAIMS;
    assert [ClaimRewards(2)] + [] == [ClaimRewards(2)];
    ThirdIsStuck(Next(u, ClaimRewards(2)));
  }
}
