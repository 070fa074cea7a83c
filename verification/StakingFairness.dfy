/**
 * The constant-time accumulator against the simple ledger that splits every deposit pro rata
 * among all stakers at the moment it is noticed.
 */
module StakingFairness {
  import opened Prelude
  import opened Arith
  import opened Sums
  import opened Staking
  import opened StakingSolvency

  /** A deposit of `amount` noticed while `total` tokens are staked. */
  datatype Notice = Notice(amount: nat, total: nat)

  /** The deposits an instruction notices and shares out; none while nothing is staked. */
  function NoticedBy(s: State, op: Op): seq<Notice> {
    if ActorOf(op).Some? && Step(s, op).Some? && s.pool.totalStaked > 0 && s.rewardVault > s.pool.lastBalance
    then [Notice(s.rewardVault - s.pool.lastBalance, s.pool.totalStaked)]
    else []
  }

  function Notices(s: State, ops: seq<Op>): seq<Notice>
    decreases |ops|
  {
    if ops == [] then [] else NoticedBy(s, ops[0]) + Notices(Next(s, ops[0]), ops[1..])
  }

  /** The exact rational share of a stake of `amount` in one noticed deposit. */
  function Cut(n: Notice, amount: nat): real {
    if n.total == 0 then 0.0 else (amount * n.amount) as real / n.total as real
  }

  /** The simple ledger: the exact share in every noticed deposit. */
  function FairShare(notices: seq<Notice>, amount: nat): real {
    if notices == [] then 0.0 else Cut(notices[0], amount) + FairShare(notices[1..], amount)
  }

  /** The accumulator's version of one deposit, and of all of them. */
  function Floor(n: Notice): nat {
    if n.total == 0 then 0 else n.amount * SCALE / n.total
  }

  function Floors(notices: seq<Notice>): nat {
    if notices == [] then 0 else Floor(notices[0]) + Floors(notices[1..])
  }

  predicate Resizes(op: Op, who: Pubkey) {
    (op.Stake? || op.Unstake?) && op.who == who
  }

  /** The instructions leave the size of `who`'s position alone; everybody else may do anything. */
  predicate Holds(ops: seq<Op>, who: Pubkey) {
    forall i :: 0 <= i < |ops| ==> !Resizes(ops[i], who)
  }

  /** Paid out so far plus claimable at the current accumulator. */
  function Entitlement(s: State, who: Pubkey): nat {
    Balance(s.rewardsOf, who) + PendingWide(s.pool, PositionOf(s, who))
  }

  // ----- the accumulator

  lemma NoticeRaisesAcc(s: State, op: Op)
    ensures Next(s, op).pool.acc == s.pool.acc + Floors(NoticedBy(s, op))
  {
    if ActorOf(op).Some? && Step(s, op).Some? {
      StepShape(s, op);
    }
  }

  lemma {:induction false} FloorsConcat(a: seq<Notice>, b: seq<Notice>)
    ensures Floors(a + b) == Floors(a) + Floors(b)
  {
    if a == [] {
      assert a + b == b;
    } else {
      assert (a + b)[1..] == a[1..] + b;
      FloorsConcat(a[1..], b);
    }
  }

  /** Deposits that arrive while nothing is staked appear in no notice, so they are never credited. */
  lemma {:induction false} AccIsFloors(s: State, ops: seq<Op>)
    ensures Run(s, ops).pool.acc == s.pool.acc + Floors(Notices(s, ops))
    ensures forall n :: n in Notices(s, ops) ==> n.total > 0
    decreases |ops|
  {
    if ops != [] {
      NoticeRaisesAcc(s, ops[0]);
      AccIsFloors(Next(s, ops[0]), ops[1..]);
      FloorsConcat(NoticedBy(s, ops[0]), Notices(Next(s, ops[0]), ops[1..]));
    }
  }

  /** `got` units of 1/SCALE stand for the real `exact`, losing at most `lost`. */
  ghost predicate Tracks(exact: real, got: int, lost: int) {
    SCALE as real * exact - lost as real <= got as real <= SCALE as real * exact
  }

  lemma TracksAdd(x: real, g: int, l: int, x': real, g': int, l': int)
    requires Tracks(x, g, l) && Tracks(x', g', l')
    ensures Tracks(x + x', g + g', l + l')
  {
  }

  lemma CutTracks(n: Notice, amount: nat)
    ensures Tracks(Cut(n, amount), amount * Floor(n), amount)
  {
    if n.total > 0 {
      DivTimes(n.amount * SCALE, n.total);
      ScaledCut(amount, n.amount, n.total, Floor(n));
    }
  }

  lemma ScaledCut(amount: nat, noticed: nat, total: nat, add: nat)
    requires total > 0 && add * total <= noticed * SCALE < add * total + total
    ensures Tracks((amount * noticed) as real / total as real, amount * add, amount)
  {
    var cut := (amount * noticed) as real / total as real;
    assert cut * total as real == (amount * noticed) as real;
    TimesBoth(amount, add * total, noticed * SCALE, total);
    assert amount * (add * total) == (amount * add) * total;
    assert amount * (noticed * SCALE) == (amount * noticed) * SCALE;
    var x, y := SCALE as real * cut, (amount * add) as real;
    assert x * total as real == SCALE as real * (cut * total as real);
    assert y * total as real <= x * total as real <= y * total as real + (amount * total) as real;
    DivideOut(x, y, amount as real, total as real);
  }

  lemma TimesBoth(a: nat, low: int, mid: int, width: int)
    requires low <= mid <= low + width
    ensures a * low <= a * mid <= a * low + a * width
  {
    assert a * (mid - low) >= 0 && a * (low + width - mid) >= 0;
  }

  lemma DivideOut(x: real, y: real, a: real, t: real)
    requires t > 0.0 && y * t <= x * t <= y * t + a * t
    ensures y <= x <= y + a
  {
    assert (x - y) * t >= 0.0 && (y + a - x) * t >= 0.0;
  }

  /** The accumulator stays within one unit per noticed deposit of the exact rate. */
  lemma {:induction false} FloorsTrackShare(notices: seq<Notice>, amount: nat)
    ensures Tracks(FairShare(notices, amount), amount * Floors(notices), amount * |notices|)
  {
    if notices != [] {
      var n, rest := notices[0], notices[1..];
      FloorsTrackShare(rest, amount);
      CutTracks(n, amount);
      TracksAdd(Cut(n, amount), amount * Floor(n), amount, FairShare(rest, amount), amount * Floors(rest), amount * |rest|);
      Distribute(amount, 1, |rest|);
      Distribute(amount, Floor(n), Floors(rest));
    }
  }

  // ----- payouts telescope

  /** What the cast to u64 cuts off a payout to `who`, in whole units. */
  function CutOff(s: State, op: Op, who: Pubkey): nat {
    match (Step(s, op), SyncPool(s.pool, s.rewardVault))
    case (Some(_), Some(p)) =>
      if ActorOf(op) == Some(who) then PendingWide(p, PositionOf(s, who)) / (U64_MAX + 1) * (U64_MAX + 1) else 0
    case _ => 0
  }

  function TotalCutOff(s: State, ops: seq<Op>, who: Pubkey): nat
    decreases |ops|
  {
    if ops == [] then 0 else CutOff(s, ops[0], who) + TotalCutOff(Next(s, ops[0]), ops[1..], who)
  }

  /** The position is still there, and the entitlement plus what was cut off moved exactly with the accumulator. */
  ghost predicate MovesWithAcc(s: State, t: State, who: Pubkey, cut: nat) {
    && who in s.positions
    && who in t.positions
    && t.positions[who].amount == s.positions[who].amount
    && Entitlement(t, who) + cut - Earned(t.positions[who].amount, t.pool.acc)
       == Entitlement(s, who) - Earned(s.positions[who].amount, s.pool.acc)
  }

  /** The size of `who`'s stake. */
  function Held(s: State, who: Pubkey): nat {
    PositionOf(s, who).amount
  }

  /** The entitlement, with what is cut off, moves exactly as the lifetime reward of the stake held so far. */
  ghost predicate GainsReward(s: State, t: State, who: Pubkey, cut: nat) {
    Entitlement(t, who) + cut - Entitlement(s, who) == Earned(Held(s, who), t.pool.acc) - Earned(Held(s, who), s.pool.acc)
  }

  lemma DebtStaysCovered(s: State, drift: int, who: Pubkey)
    requires Inv(s, drift) && SyncPool(s.pool, s.rewardVault).Some?
    ensures PositionOf(s, who).debt <= Earned(Held(s, who), s.pool.acc)
                                    <= Earned(Held(s, who), SyncPool(s.pool, s.rewardVault).value.acc)
  {
    EarnedMonotone(Held(s, who), s.pool.acc, SyncPool(s.pool, s.rewardVault).value.acc);
  }

  /** Any instruction by anybody, resizing or not. */
  lemma EntitlementGain(s: State, op: Op, who: Pubkey, drift: int)
    requires Inv(s, drift)
    ensures GainsReward(s, Next(s, op), who, CutOff(s, op, who))
  {
    if ActorOf(op).Some? && Step(s, op).Some? {
      StepShape(s, op);
      var p, t, actor := SyncPool(s.pool, s.rewardVault).value, Step(s, op).value, ActorOf(op).value;
      DebtStaysCovered(s, drift, who);
      if actor == who {
        OwnEntitlement(s, op, who, p, t);
      } else {
        OthersEntitlement(s, op, actor, p, t, who);
      }
    }
  }

  lemma Remainder(x: nat)
    ensures x == x / (U64_MAX + 1) * (U64_MAX + 1) + x % (U64_MAX + 1)
  {
  }

  /** The acting staker is paid what was pending, less the cut, and its debt catches up. */
  lemma OwnEntitlement(s: State, op: Op, who: Pubkey, p: Pool, t: State)
    requires Shape(s, op, who, p, t)
    requires PositionOf(s, who).debt <= Earned(Held(s, who), s.pool.acc) <= Earned(Held(s, who), p.acc)
    ensures GainsReward(s, t, who, PendingWide(p, PositionOf(s, who)) / (U64_MAX + 1) * (U64_MAX + 1))
  {
    assert PendingWide(t.pool, t.positions[who]) == 0;
    Remainder(PendingWide(p, PositionOf(s, who)));
  }

  lemma OthersEntitlement(s: State, op: Op, actor: Pubkey, p: Pool, t: State, who: Pubkey)
    requires Shape(s, op, actor, p, t) && actor != who
    requires PositionOf(s, who).debt <= Earned(Held(s, who), s.pool.acc) <= Earned(Held(s, who), p.acc)
    ensures GainsReward(s, t, who, 0)
  {
    assert PositionOf(t, who) == PositionOf(s, who);
  }

  /** An instruction that does not resize `who`'s position. */
  lemma EntitlementStep(s: State, op: Op, who: Pubkey, drift: int)
    requires Inv(s, drift)
    requires who in s.positions && !Resizes(op, who)
    ensures MovesWithAcc(s, Next(s, op), who, CutOff(s, op, who))
  {
    EntitlementGain(s, op, who, drift);
    HeldAfter(s, op, who);
  }

  lemma HeldAfter(s: State, op: Op, who: Pubkey)
    requires !(Resizes(op, who) && Step(s, op).Some?)
    ensures Held(Next(s, op), who) == Held(s, who)
    ensures who in s.positions ==> who in Next(s, op).positions
  {
    if ActorOf(op).Some? && Step(s, op).Some? {
      StepShape(s, op);
    }
  }

  /**
   * However often `who` claims and whatever the others do, paid plus pending moves exactly as
   * floor(amount * acc / SCALE) does: splitting a claim gains and loses nothing. Only a payout
   * beyond u64 is cut off, and what is cut is counted.
   */
  lemma {:induction false} ClaimsTelescope(s: State, ops: seq<Op>, who: Pubkey, drift: int)
    requires Inv(s, drift)
    requires who in s.positions && Holds(ops, who)
    ensures MovesWithAcc(s, Run(s, ops), who, TotalCutOff(s, ops, who))
    decreases |ops|
  {
    if ops != [] {
      EntitlementStep(s, ops[0], who, drift);
      StepKeepsInv(s, ops[0], drift);
      ClaimsTelescope(Next(s, ops[0]), ops[1..], who, drift + DriftOf(s, ops[0]));
    }
  }

  ghost predicate NearShare(gained: int, share: real, loss: nat) {
    share - 1.0 - loss as real / SCALE as real < gained as real < share + 1.0
  }

  lemma FloorDifference(x: nat, y: nat)
    ensures x - y - SCALE < SCALE * (x / SCALE - y / SCALE) < x - y + SCALE
  {
    DivTimes(x, SCALE);
    DivTimes(y, SCALE);
  }

  lemma ScaleDown(gained: int, grown: int, share: real, loss: nat)
    requires grown - SCALE < SCALE * gained < grown + SCALE
    requires Tracks(share, grown, loss)
    ensures NearShare(gained, share, loss)
  {
    assert (SCALE * gained) as real == SCALE as real * gained as real;
  }

  lemma GainFollowsShare(amount: nat, acc: nat, growth: nat, share: real, loss: nat)
    requires Tracks(share, amount * growth, loss)
    ensures NearShare(Earned(amount, acc + growth) - Earned(amount, acc), share, loss)
  {
    var x, y := amount * (acc + growth), amount * acc;
    Distribute(amount, acc, growth);
    FloorDifference(x, y);
    ScaleDown(x / SCALE - y / SCALE, x - y, share, loss);
  }

  /** What a stake of `amount` earns over some notices is near its exact share of them. */
  ghost predicate EarnsItsShare(gained: int, notices: seq<Notice>, amount: nat) {
    NearShare(gained, FairShare(notices, amount), amount * |notices|)
  }

  lemma GrowthEarnsShare(amount: nat, acc: nat, acc': nat, notices: seq<Notice>)
    requires acc' == acc + Floors(notices)
    ensures EarnsItsShare(Earned(amount, acc') - Earned(amount, acc), notices, amount)
  {
    FloorsTrackShare(notices, amount);
    GainFollowsShare(amount, acc, Floors(notices), FairShare(notices, amount), amount * |notices|);
  }

  /** What `who` was paid and may claim after the run, with the cut, over what it could claim before. */
  ghost function Gained(s: State, ops: seq<Op>, who: Pubkey): int {
    Entitlement(Run(s, ops), who) + TotalCutOff(s, ops, who) - Entitlement(s, who)
  }

  /**
   * Refinement of the pro-rata ledger: in any run that leaves a position of size `amount`
   * alone, what it is paid plus what it may claim is less than 1 above its exact rational
   * share of the noticed deposits, and less than 1 + K * amount / SCALE below it, K being the
   * number of notices.
   */
  lemma ProRata(s: State, ops: seq<Op>, who: Pubkey, drift: int)
    requires Inv(s, drift)
    requires who in s.positions && Holds(ops, who)
    ensures EarnsItsShare(Gained(s, ops, who), Notices(s, ops), s.positions[who].amount)
  {
    var amount, t := s.positions[who].amount, Run(s, ops);
    ClaimsTelescope(s, ops, who, drift);
    AccIsFloors(s, ops);
    GrowthEarnsShare(amount, s.pool.acc, t.pool.acc, Notices(s, ops));
  }

  /** The pro-rata guarantee from any reachable state on. */
  lemma ReachableProRata(s: State, past: seq<Op>, ops: seq<Op>, who: Pubkey)
    requires Initial(s)
    requires who in Run(s, past).positions && Holds(ops, who)
    ensures var t := Run(s, past);
            EarnsItsShare(Gained(t, ops, who), Notices(t, ops), t.positions[who].amount)
  {
    ReachableInv(s, past);
    ProRata(Run(s, past), ops, who, TotalDrift(s, past));
  }

  // ----- a staker's whole lifetime

  /** The exact share of every deposit, weighed by the stake held when it was noticed. */
  function LifetimeShare(s: State, ops: seq<Op>, who: Pubkey): real
    decreases |ops|
  {
    if ops == [] then 0.0
    else FairShare(NoticedBy(s, ops[0]), Held(s, who)) + LifetimeShare(Next(s, ops[0]), ops[1..], who)
  }

  /** What an instruction's sync credits to the stake held before it, in units of 1/SCALE. */
  function Growth(s: State, op: Op, who: Pubkey): nat {
    Held(s, who) * Floors(NoticedBy(s, op))
  }

  /** The accumulator's version of the lifetime share, and what its floors may lose. */
  function LifetimeFloors(s: State, ops: seq<Op>, who: Pubkey): nat
    decreases |ops|
  {
    if ops == [] then 0
    else Growth(s, ops[0], who) + LifetimeFloors(Next(s, ops[0]), ops[1..], who)
  }

  function LifetimeLoss(s: State, ops: seq<Op>, who: Pubkey): nat
    decreases |ops|
  {
    if ops == [] then 0
    else Held(s, who) * |NoticedBy(s, ops[0])| + LifetimeLoss(Next(s, ops[0]), ops[1..], who)
  }

  /** How often `who` successfully stakes or unstakes. */
  function ResizesBy(s: State, ops: seq<Op>, who: Pubkey): nat
    decreases |ops|
  {
    if ops == [] then 0
    else ResizeBy(s, ops[0], who) + ResizesBy(Next(s, ops[0]), ops[1..], who)
  }

  lemma {:induction false} LifetimeTracks(s: State, ops: seq<Op>, who: Pubkey)
    ensures Tracks(LifetimeShare(s, ops, who), LifetimeFloors(s, ops, who), LifetimeLoss(s, ops, who))
    decreases |ops|
  {
    if ops != [] {
      var t, rest, notices, held := Next(s, ops[0]), ops[1..], NoticedBy(s, ops[0]), Held(s, who);
      LifetimeTracks(t, rest, who);
      FloorsTrackShare(notices, held);
      TracksAdd(FairShare(notices, held), Growth(s, ops[0], who), held * |notices|,
                LifetimeShare(t, rest, who), LifetimeFloors(t, rest, who), LifetimeLoss(t, rest, who));
    }
  }

  /** What `who` was paid and may claim, in units of 1/SCALE, fractions included. */
  function Level(s: State, who: Pubkey): int {
    SCALE * Entitlement(s, who) + Dust(Held(s, who), s.pool.acc)
  }

  /** The level rose by `growth`, give or take less than a unit for each of `resizes`. */
  ghost predicate Rises(rise: int, growth: nat, resizes: nat) {
    growth - (SCALE - 1) * resizes <= rise <= growth + (SCALE - 1) * resizes
  }

  lemma RisesAdd(r: int, g: nat, n: nat, r': int, g': nat, n': nat)
    requires Rises(r, g, n) && Rises(r', g', n')
    ensures Rises(r + r', g + g', n + n')
  {
    Distribute(SCALE - 1, n, n');
  }

  /** The level follows the credit exactly, but for the dust a resize replaces. */
  lemma LevelRise(held: nat, acc: nat, acc': nat, floors: nat, gained: int, dust: nat, resized: bool)
    requires acc' == acc + floors && gained == Earned(held, acc') - Earned(held, acc)
    requires dust < SCALE && (!resized ==> dust == Dust(held, acc'))
    ensures Rises(SCALE * gained + dust - Dust(held, acc), held * floors, if resized then 1 else 0)
  {
    EarnedSplit(held, acc);
    EarnedSplit(held, acc');
    Distribute(held, acc, floors);
    Distribute(SCALE, Earned(held, acc') - Earned(held, acc), Earned(held, acc));
  }

  /** From `s` to `t` the level, with `cut`, rose by `growth`, over so many resizes. */
  ghost predicate LevelRises(s: State, t: State, who: Pubkey, cut: nat, growth: nat, resizes: nat) {
    Rises(Level(t, who) + SCALE * cut - Level(s, who), growth, resizes)
  }

  lemma LevelRisesAdd(s: State, t: State, u: State, who: Pubkey, c: nat, g: nat, n: nat, c': nat, g': nat, n': nat)
    requires LevelRises(s, t, who, c, g, n) && LevelRises(t, u, who, c', g', n')
    ensures LevelRises(s, u, who, c + c', g + g', n + n')
  {
    Distribute(SCALE, c, c');
    RisesAdd(Level(t, who) + SCALE * c - Level(s, who), g, n, Level(u, who) + SCALE * c' - Level(t, who), g', n');
  }

  function ResizeBy(s: State, op: Op, who: Pubkey): nat {
    if Resizes(op, who) && Step(s, op).Some? then 1 else 0
  }

  lemma LevelStep(s: State, op: Op, who: Pubkey, drift: int)
    requires Inv(s, drift)
    ensures LevelRises(s, Next(s, op), who, CutOff(s, op, who), Growth(s, op, who), ResizeBy(s, op, who))
  {
    var t, resized := Next(s, op), Resizes(op, who) && Step(s, op).Some?;
    var gained := Entitlement(t, who) + CutOff(s, op, who) - Entitlement(s, who);
    EntitlementGain(s, op, who, drift);
    NoticeRaisesAcc(s, op);
    EarnedSplit(Held(t, who), t.pool.acc);
    if !resized {
      HeldAfter(s, op, who);
    }
    LevelRise(Held(s, who), s.pool.acc, t.pool.acc, Floors(NoticedBy(s, op)), gained, Dust(Held(t, who), t.pool.acc), resized);
    LevelOfGain(s, t, who, CutOff(s, op, who), gained);
  }

  lemma LevelOfGain(s: State, t: State, who: Pubkey, cut: nat, gained: int)
    requires gained == Entitlement(t, who) + cut - Entitlement(s, who)
    ensures Level(t, who) + SCALE * cut - Level(s, who)
            == SCALE * gained + Dust(Held(t, who), t.pool.acc) - Dust(Held(s, who), s.pool.acc)
  {
  }

  lemma {:induction false} LevelBooks(s: State, ops: seq<Op>, who: Pubkey, drift: int)
    requires Inv(s, drift)
    ensures LevelRises(s, Run(s, ops), who, TotalCutOff(s, ops, who), LifetimeFloors(s, ops, who), ResizesBy(s, ops, who))
    decreases |ops|
  {
    if ops != [] {
      var t, rest := Next(s, ops[0]), ops[1..];
      LevelStep(s, ops[0], who, drift);
      StepKeepsInv(s, ops[0], drift);
      LevelBooks(t, rest, who, drift + DriftOf(s, ops[0]));
      LevelRisesAdd(s, t, Run(t, rest), who,
                    CutOff(s, ops[0], who), Growth(s, ops[0], who), ResizeBy(s, ops[0], who),
                    TotalCutOff(t, rest, who), LifetimeFloors(t, rest, who), ResizesBy(t, rest, who));
    }
  }

  /** Within `units` above the share, and within `units` plus the floors' loss below it. */
  ghost predicate WithinUnits(gained: int, share: real, loss: nat, units: nat) {
    share - units as real - loss as real / SCALE as real < gained as real < share + units as real
  }

  lemma RiseToUnits(gained: int, growth: nat, resizes: nat, before: nat, after: nat, share: real, loss: nat)
    requires before < SCALE && after < SCALE && Tracks(share, growth, loss)
    requires Rises(SCALE * gained + after - before, growth, resizes)
    ensures WithinUnits(gained, share, loss, resizes + 1)
  {
    Distribute(SCALE, resizes, 1);
    assert growth - SCALE * (resizes + 1) < SCALE * gained < growth + SCALE * (resizes + 1);
    assert (SCALE * gained) as real == SCALE as real * gained as real;
    assert (SCALE * (resizes + 1)) as real == SCALE as real * (resizes + 1) as real;
  }

  /**
   * Over a staker's whole lifetime, however often it stakes and unstakes: with R resizes, what it
   * is paid plus what it may claim is less than R + 1 above the exact share of every deposit for
   * the stake held at the time, and less than R + 1 plus the floors' loss below it.
   */
  lemma LifetimeProRata(s: State, ops: seq<Op>, who: Pubkey, drift: int)
    requires Inv(s, drift)
    ensures WithinUnits(Gained(s, ops, who), LifetimeShare(s, ops, who), LifetimeLoss(s, ops, who), ResizesBy(s, ops, who) + 1)
  {
    var t := Run(s, ops);
    LevelBooks(s, ops, who, drift);
    LifetimeTracks(s, ops, who);
    EarnedSplit(Held(s, who), s.pool.acc);
    EarnedSplit(Held(t, who), t.pool.acc);
    LevelOfGain(s, t, who, TotalCutOff(s, ops, who), Gained(s, ops, who));
    RiseToUnits(Gained(s, ops, who), LifetimeFloors(s, ops, who), ResizesBy(s, ops, who),
                Dust(Held(s, who), s.pool.acc), Dust(Held(t, who), t.pool.acc), LifetimeShare(s, ops, who), LifetimeLoss(s, ops, who));
  }

  /** The lifetime guarantee from any reachable state on. */
  lemma ReachableLifetime(s: State, past: seq<Op>, ops: seq<Op>, who: Pubkey)
    requires Initial(s)
    ensures var t := Run(s, past);
            WithinUnits(Gained(t, ops, who), LifetimeShare(t, ops, who), LifetimeLoss(t, ops, who), ResizesBy(t, ops, who) + 1)
  {
    ReachableInv(s, past);
    LifetimeProRata(Run(s, past), ops, who, TotalDrift(s, past));
  }

  // ----- when nothing is cut off

  /** The supply plus one unit per instruction fits a u64. */
  ghost predicate Roomy(s: State, drift: int, rebases: nat, more: nat) {
    && Inv(s, drift)
    && drift <= (SCALE - 1) * rebases
    && s.rewardCap + rebases + more <= U64_MAX
  }

  /** No single staker is owed more than the vault plus the units all stakers together can be owed beyond it. */
  lemma PendingBound(s: State, who: Pubkey, drift: int, slack: nat)
    requires Inv(s, drift) && drift < SCALE * (slack + 1)
    requires SyncPool(s.pool, s.rewardVault).Some?
    ensures PendingWide(SyncPool(s.pool, s.rewardVault).value, PositionOf(s, who)) <= s.rewardVault + slack
  {
    DriftToSlack(s, drift, slack);
    if who in s.positions {
      SumDominates(Pendings(s.positions, SyncPool(s.pool, s.rewardVault).value), who);
    }
  }

  lemma SlackOfDrift(drift: int, rebases: nat)
    requires drift <= (SCALE - 1) * rebases
    ensures drift < SCALE * (rebases + 1)
  {
  }

  lemma RoomyCutsNothing(s: State, op: Op, who: Pubkey, drift: int, rebases: nat, more: nat)
    requires Roomy(s, drift, rebases, more)
    ensures CutOff(s, op, who) == 0
  {
    if SyncPool(s.pool, s.rewardVault).Some? {
      SlackOfDrift(drift, rebases);
      PendingBound(s, who, drift, rebases);
    }
  }

  lemma OneMoreRebase(drift: int, add: int, rebases: nat)
    requires drift <= (SCALE - 1) * rebases && add <= SCALE - 1
    ensures drift + add <= (SCALE - 1) * (rebases + 1)
  {
    Distribute(SCALE - 1, rebases, 1);
  }

  lemma RoomyStep(s: State, op: Op, drift: int, rebases: nat, more: nat)
    requires Roomy(s, drift, rebases, more) && more > 0
    ensures Roomy(Next(s, op), drift + DriftOf(s, op), rebases + 1, more - 1)
  {
    StepKeepsInv(s, op, drift);
    DriftOfBound(s, op);
    OneMoreRebase(drift, DriftOf(s, op), rebases);
    CapKept(s, op);
  }

  lemma CapKept(s: State, op: Op)
    ensures Next(s, op).rewardCap == s.rewardCap
  {
    if ActorOf(op).Some? && Step(s, op).Some? {
      StepShape(s, op);
    }
  }

  /** While the supply plus the number of instructions fits a u64, no payout is ever cut. */
  lemma {:induction false} NothingCutOff(s: State, ops: seq<Op>, who: Pubkey, drift: int, rebases: nat)
    requires Roomy(s, drift, rebases, |ops|)
    ensures TotalCutOff(s, ops, who) == 0
    decreases |ops|
  {
    if ops != [] {
      RoomyCutsNothing(s, ops[0], who, drift, rebases, |ops|);
      RoomyStep(s, ops[0], drift, rebases, |ops|);
      NothingCutOff(Next(s, ops[0]), ops[1..], who, drift + DriftOf(s, ops[0]), rebases + 1);
    }
  }

  lemma FreshPoolCutsNothing(s: State, ops: seq<Op>, who: Pubkey)
    requires Initial(s) && s.rewardCap + |ops| <= U64_MAX
    ensures TotalCutOff(s, ops, who) == 0
  {
    InitialInv(s);
    NothingCutOff(s, ops, who, 0, 0);
  }

  // ----- timing of syncs

  function Total(parts: seq<nat>): nat {
    if parts == [] then 0 else parts[0] + Total(parts[1..])
  }

  function NoticedSeparately(parts: seq<nat>, total: nat): seq<Notice> {
    if parts == [] then [] else [Notice(parts[0], total)] + NoticedSeparately(parts[1..], total)
  }

  /** Noticing one deposit in several pieces never raises the accumulator and costs at most one unit per extra sync. */
  lemma {:induction false} SplittingDeposits(parts: seq<nat>, total: nat)
    requires total > 0 && parts != []
    ensures Floors(NoticedSeparately(parts, total)) <= Floor(Notice(Total(parts), total))
                                                    <= Floors(NoticedSeparately(parts, total)) + |parts| - 1
  {
    if |parts| > 1 {
      SplittingDeposits(parts[1..], total);
      FloorOfSum(parts[0] * SCALE, Total(parts[1..]) * SCALE, total);
    } else {
      assert parts[1..] == [];
    }
  }
}
