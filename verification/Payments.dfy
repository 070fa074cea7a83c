/** Where the money goes: conservation over all instructions, exact fan-out, and covered escrows. */
module Payments {
  import opened Prelude
  import opened Arith
  import opened Naming
  import opened Ledger
  import opened Economics
  import opened Registry

  /** The payments an instruction makes when it succeeds. */
  function MovesOf(s: State, ix: Instruction): seq<Move> {
    match ix
    case OnName(id, op) =>
      (match Perform(EnvOf(s), id, CellOf(s, id), op)
       case Some(effect) => effect.moves
       case None => [])
    case MakeOffer(buyer, id, amount, _) => [PayLamports(Wallet(buyer), OfferEscrow(id, buyer), amount)]
    case AcceptOffer(signer, id, buyer) =>
      if (id, buyer) in s.offers then AcceptMoves(s.config, id, signer, buyer, s.offers[(id, buyer)].amount) else []
    case CancelOffer(_, id, buyer, _) => [CloseLamports(OfferEscrow(id, buyer), Wallet(buyer))]
    case BuybackBurn(keeper, amount) =>
      (match BuybackUsdc(s.config, amount)
       case Some(out) => [PayTokens(s.config.burnVault, Wallet(keeper), out), BurnSolans(Wallet(keeper), amount)]
       case None => [])
    case Send(payment) => [payment]
    case _ => []
  }

  lemma StepPays(s: State, ix: Instruction)
    requires Step(s, ix).Some?
    ensures MakeMoves(s.bank, MovesOf(s, ix)) == Some(Next(s, ix).bank)
  {
    if ix.OnName? {
      OnNamePays(s, ix.id, ix.op);
    }
  }

  lemma OnNamePays(s: State, id: NameId, op: NameOp)
    requires OnNameStep(s, id, op).Some?
    ensures MakeMoves(s.bank, Perform(EnvOf(s), id, CellOf(s, id), op).value.moves) == Some(OnNameStep(s, id, op).value.bank)
  {
  }

  // ----- conservation

  predicate AllProper(moves: seq<Move>) {
    forall i :: 0 <= i < |moves| ==> Proper(moves[i])
  }

  lemma PerformProper(e: Env, id: NameId, c: Cell, op: NameOp)
    requires Perform(e, id, c, op).Some?
    ensures AllProper(Perform(e, id, c, op).value.moves)
  {
    PerformTypical(e, id, c, op);
    TypicalProper(Perform(e, id, c, op).value.moves, id);
  }

  lemma TypicalProper(moves: seq<Move>, id: NameId)
    requires AllTypical(moves, id)
    ensures AllProper(moves)
    ensures forall n, b :: !Draws(moves, OfferEscrow(n, b))
  {
    forall i | 0 <= i < |moves| ensures Proper(moves[i]) {
      assert Typical(moves[i], id);
    }
    forall n, b ensures !Draws(moves, OfferEscrow(n, b)) {
      forall i | 0 <= i < |moves| ensures !DrawsLamports(moves[i], OfferEscrow(n, b)) {
        assert Typical(moves[i], id);
      }
    }
  }

  lemma MovesProper(s: State, ix: Instruction)
    requires Step(s, ix).Some?
    ensures AllProper(MovesOf(s, ix))
  {
    if ix.OnName? {
      PerformProper(EnvOf(s), ix.id, CellOf(s, ix.id), ix.op);
    }
  }

  lemma SameTotalsTransitive(a: Bank, b: Bank, c: Bank)
    requires SameTotals(a, b) && SameTotals(b, c)
    ensures SameTotals(a, c)
  {
  }

  /** Over every run, whichever accounts coincide: no lamport and no payment token appears or vanishes, and every burnt `$SOLANS` leaves the supply. */
  lemma {:induction false} RunConserves(s: State, ixs: seq<Instruction>)
    ensures SameTotals(s.bank, Run(s, ixs).bank)
    decreases |ixs|
  {
    if ixs != [] {
      if Step(s, ixs[0]).Some? {
        StepPays(s, ixs[0]);
        MovesProper(s, ixs[0]);
        MovesConserve(s.bank, MovesOf(s, ixs[0]));
      }
      RunConserves(Next(s, ixs[0]), ixs[1..]);
      SameTotalsTransitive(s.bank, Next(s, ixs[0]).bank, Run(s, ixs).bank);
    }
  }

  // ----- the fan-out of a fee

  /** `amount` if it is addressed to `a`. */
  function Part(a: Account, addressee: Account, amount: nat): nat {
    if addressee == a then amount else 0
  }

  function Gain(m: Move, a: Account): nat {
    if m.PayTokens? then Part(a, m.to, m.amount) else 0
  }

  function Loss(m: Move, a: Account): nat {
    if m.PayTokens? then Part(a, m.from, m.amount) else 0
  }

  function Credited(moves: seq<Move>, a: Account): nat {
    if moves == [] then 0 else Gain(moves[0], a) + Credited(moves[1..], a)
  }

  function Debited(moves: seq<Move>, a: Account): nat {
    if moves == [] then 0 else Loss(moves[0], a) + Debited(moves[1..], a)
  }

  lemma FlowConcat(xs: seq<Move>, ys: seq<Move>, a: Account)
    ensures Credited(xs + ys, a) == Credited(xs, a) + Credited(ys, a)
    ensures Debited(xs + ys, a) == Debited(xs, a) + Debited(ys, a)
  {
    if xs == [] {
      assert xs + ys == ys;
    } else {
      assert (xs + ys)[1..] == xs[1..] + ys;
      FlowConcat(xs[1..], ys, a);
    }
  }

  lemma FlowOfOne(n: Move, a: Account)
    ensures Credited([n], a) == Gain(n, a) && Debited([n], a) == Loss(n, a)
  {
    var rest: seq<Move> := [n][1..];
    assert rest == [];
    assert Credited(rest, a) == 0 && Debited(rest, a) == 0;
  }

  lemma FlowOfTwo(m: Move, n: Move, a: Account)
    ensures Credited([m, n], a) == Gain(m, a) + Gain(n, a)
    ensures Debited([m, n], a) == Loss(m, a) + Loss(n, a)
  {
    FlowOfOne(m, a);
    FlowOfOne(n, a);
    FlowConcat([m], [n], a);
    assert [m] + [n] == [m, n];
  }

  /** Payment-token balances move by exactly what the list credits and debits, self-payments included. */
  lemma {:induction false} TokenFlow(bank: Bank, moves: seq<Move>, a: Account)
    requires MakeMoves(bank, moves).Some?
    ensures Get(MakeMoves(bank, moves).value.payment, a) == Get(bank.payment, a) + Credited(moves, a) - Debited(moves, a)
    decreases |moves|
  {
    if moves != [] {
      TokenFlow(MakeMove(bank, moves[0]).value, moves[1..], a);
    }
  }

  /** What account `a` receives of a split fee. */
  function Shares(c: Config, referral: Option<Account>, split: Split, a: Account): nat {
    Part(a, c.stakingVault, split.staking) + Part(a, c.burnVault, split.burn)
    + match referral
      case Some(r) => Part(a, r, split.referral) + Part(a, c.treasury, split.treasury)
      case None => Part(a, c.treasury, split.treasury + split.referral)
  }

  /** The payer is charged the whole fee, and each account receives exactly the shares addressed to it. */
  lemma FanOutExact(c: Config, payer: Pubkey, referral: Option<Account>, fee: nat, a: Account)
    requires ValidConfig(c)
    ensures var moves := FeeMoves(c, payer, referral, fee);
            && Debited(moves, a) == Part(a, Wallet(payer), fee)
            && Credited(moves, a) == Shares(c, referral, FeeSplit(c, fee), a)
  {
    FeeSplitExact(c, fee);
    FanOutFlow(c, Wallet(payer), referral, FeeSplit(c, fee), a);
  }

  lemma FanOutFlow(c: Config, from: Account, referral: Option<Account>, s: Split, a: Account)
    ensures Debited(SplitMoves(c, from, referral, s), a) == Part(a, from, s.staking + s.burn + s.referral + s.treasury)
    ensures Credited(SplitMoves(c, from, referral, s), a) == Shares(c, referral, s, a)
  {
    var m, n := PayTokens(from, c.stakingVault, s.staking), PayTokens(from, c.burnVault, s.burn);
    match referral
    case Some(r) =>
      var x, y := PayTokens(from, r, s.referral), PayTokens(from, c.treasury, s.treasury);
      FlowOfFour(m, n, x, y, a);
      assert SplitMoves(c, from, referral, s) == [m, n] + [x, y];
    case None =>
      var x := PayTokens(from, c.treasury, s.treasury + s.referral);
      FlowOfThree(m, n, x, a);
      assert SplitMoves(c, from, referral, s) == [m, n] + [x];
  }

  lemma FlowOfThree(m: Move, n: Move, x: Move, a: Account)
    ensures Credited([m, n] + [x], a) == Gain(m, a) + Gain(n, a) + Gain(x, a)
    ensures Debited([m, n] + [x], a) == Loss(m, a) + Loss(n, a) + Loss(x, a)
  {
    FlowOfTwo(m, n, a);
    FlowOfOne(x, a);
    FlowConcat([m, n], [x], a);
  }

  lemma FlowOfFour(m: Move, n: Move, x: Move, y: Move, a: Account)
    ensures Credited([m, n] + [x, y], a) == Gain(m, a) + Gain(n, a) + Gain(x, a) + Gain(y, a)
    ensures Debited([m, n] + [x, y], a) == Loss(m, a) + Loss(n, a) + Loss(x, a) + Loss(y, a)
  {
    FlowOfTwo(m, n, a);
    FlowOfTwo(x, y, a);
    FlowConcat([m, n], [x, y], a);
  }

  // ----- offers

  /** Every open offer's escrow holds at least the offer. */
  ghost predicate EscrowsCovered(s: State) {
    forall id, b :: (id, b) in s.offers ==> Get(s.bank.lamports, OfferEscrow(id, b)) >= s.offers[(id, b)].amount
  }

  predicate Draws(moves: seq<Move>, a: Account) {
    exists i :: 0 <= i < |moves| && DrawsLamports(moves[i], a)
  }

  lemma PerformSparesEscrows(e: Env, id: NameId, c: Cell, op: NameOp, n: NameId, b: Pubkey)
    requires Perform(e, id, c, op).Some?
    ensures !Draws(Perform(e, id, c, op).value.moves, OfferEscrow(n, b))
  {
    PerformTypical(e, id, c, op);
    TypicalProper(Perform(e, id, c, op).value.moves, id);
  }

  /** Only accepting or cancelling an offer draws on its escrow. */
  lemma EscrowSpared(s: State, ix: Instruction, id: NameId, b: Pubkey)
    requires Step(s, ix).Some?
    requires !(ix.AcceptOffer? && ix.id == id && ix.buyer == b) && !(ix.CancelOffer? && ix.id == id && ix.buyer == b)
    ensures !Draws(MovesOf(s, ix), OfferEscrow(id, b))
  {
    if ix.OnName? {
      PerformSparesEscrows(EnvOf(s), ix.id, CellOf(s, ix.id), ix.op, id, b);
    }
  }

  lemma OffersAfter(s: State, ix: Instruction, id: NameId, b: Pubkey)
    requires Step(s, ix).Some? && (id, b) in Next(s, ix).offers
    ensures !(ix.AcceptOffer? && ix.id == id && ix.buyer == b) && !(ix.CancelOffer? && ix.id == id && ix.buyer == b)
    ensures if ix.MakeOffer? && ix.id == id && ix.buyer == b then Next(s, ix).offers[(id, b)].amount == ix.amount
            else (id, b) in s.offers && Next(s, ix).offers[(id, b)] == s.offers[(id, b)]
  {
  }

  lemma MadeOfferFunded(s: State, buyer: Pubkey, id: NameId, amount: U64, duration: int)
    requires MakeOfferStep(s, buyer, id, amount, duration).Some?
    ensures Get(MakeOfferStep(s, buyer, id, amount, duration).value.bank.lamports, OfferEscrow(id, buyer))
            == Get(s.bank.lamports, OfferEscrow(id, buyer)) + amount
  {
    OneMove(s.bank, PayLamports(Wallet(buyer), OfferEscrow(id, buyer), amount));
  }

  lemma StepKeepsEscrows(s: State, ix: Instruction)
    requires EscrowsCovered(s)
    ensures EscrowsCovered(Next(s, ix))
  {
    if Step(s, ix).Some? {
      var t := Next(s, ix);
      forall id, b | (id, b) in t.offers ensures Get(t.bank.lamports, OfferEscrow(id, b)) >= t.offers[(id, b)].amount {
        OffersAfter(s, ix, id, b);
        StepPays(s, ix);
        EscrowSpared(s, ix, id, b);
        LamportsNotDrawn(s.bank, MovesOf(s, ix), OfferEscrow(id, b));
        if ix.MakeOffer? && ix.id == id && ix.buyer == b {
          MadeOfferFunded(s, b, id, ix.amount, ix.duration);
        }
      }
    }
  }

  lemma {:induction false} RunKeepsEscrows(s: State, ixs: seq<Instruction>)
    requires EscrowsCovered(s)
    ensures EscrowsCovered(Run(s, ixs))
    decreases |ixs|
  {
    if ixs != [] {
      StepKeepsEscrows(s, ixs[0]);
      RunKeepsEscrows(Next(s, ixs[0]), ixs[1..]);
    }
  }

  // ----- buyback over a run

  /** No instruction of the run changes the `$SOLANS` rate. */
  predicate RateFixed(ixs: seq<Instruction>, rate: U64) {
    forall i :: 0 <= i < |ixs| && ixs[i].Configure? ==> ixs[i].config.solansRate == rate
  }

  /** Payment tokens an instruction reimburses from the burn vault, and the `$SOLANS` it burns for them. */
  function Reimbursed(s: State, ix: Instruction): nat {
    if ix.BuybackBurn? && Step(s, ix).Some? then BuybackUsdc(s.config, ix.amount).value else 0
  }

  function BurntFor(s: State, ix: Instruction): nat {
    if ix.BuybackBurn? && Step(s, ix).Some? then ix.amount else 0
  }

  function TotalReimbursed(s: State, ixs: seq<Instruction>): nat
    decreases |ixs|
  {
    if ixs == [] then 0 else Reimbursed(s, ixs[0]) + TotalReimbursed(Next(s, ixs[0]), ixs[1..])
  }

  function TotalBurntFor(s: State, ixs: seq<Instruction>): nat
    decreases |ixs|
  {
    if ixs == [] then 0 else BurntFor(s, ixs[0]) + TotalBurntFor(Next(s, ixs[0]), ixs[1..])
  }

  /** What was paid, at `rate`, is within what was burnt. */
  predicate CoveredAt(rate: nat, paid: nat, burnt: nat) {
    paid * rate <= burnt * RATE_SCALE
  }

  lemma OneBuyback(s: State, ix: Instruction)
    ensures CoveredAt(s.config.solansRate, Reimbursed(s, ix), BurntFor(s, ix))
  {
    if ix.BuybackBurn? && Step(s, ix).Some? {
      BuybackCovered(s.config, ix.amount);
    }
  }

  lemma RateAfter(s: State, ix: Instruction)
    ensures Next(s, ix).config.solansRate == if ix.Configure? && Step(s, ix).Some? then ix.config.solansRate else s.config.solansRate
  {
  }

  /** A successful buyback is funded by the burn vault it draws on. */
  lemma BuybackFunded(s: State, keeper: Pubkey, amount: U64)
    requires Step(s, BuybackBurn(keeper, amount)).Some? && s.config.burnVault != Wallet(keeper)
    ensures var t, out := Next(s, BuybackBurn(keeper, amount)), Reimbursed(s, BuybackBurn(keeper, amount));
            && 0 < out <= Get(s.bank.payment, s.config.burnVault)
            && Get(t.bank.payment, s.config.burnVault) == Get(s.bank.payment, s.config.burnVault) - out
            && Get(t.bank.payment, Wallet(keeper)) == Get(s.bank.payment, Wallet(keeper)) + out
            && t.bank.supply == s.bank.supply - amount
  {
    var out := BuybackUsdc(s.config, amount).value;
    TwoMoves(s.bank, PayTokens(s.config.burnVault, Wallet(keeper), out), BurnSolans(Wallet(keeper), amount));
  }

  lemma RateStays(s: State, ixs: seq<Instruction>)
    requires ixs != [] && RateFixed(ixs, s.config.solansRate)
    ensures Next(s, ixs[0]).config.solansRate == s.config.solansRate
    ensures RateFixed(ixs[1..], s.config.solansRate)
  {
    RateAfter(s, ixs[0]);
    forall i | 0 <= i < |ixs[1..]| && ixs[1..][i].Configure? ensures ixs[1..][i].config.solansRate == s.config.solansRate {
      assert ixs[1..][i] == ixs[i + 1];
    }
  }

  lemma CoverAdds(rate: nat, paid: nat, burnt: nat, morePaid: nat, moreBurnt: nat)
    requires CoveredAt(rate, paid, burnt) && CoveredAt(rate, morePaid, moreBurnt)
    ensures CoveredAt(rate, paid + morePaid, burnt + moreBurnt)
  {
    Distribute(rate, paid, morePaid);
  }

  /** At a fixed rate, over any run and however buybacks are split, what the vault paid is covered by what was burnt. */
  lemma {:induction false} BuybacksCovered(s: State, ixs: seq<Instruction>)
    requires RateFixed(ixs, s.config.solansRate)
    ensures CoveredAt(s.config.solansRate, TotalReimbursed(s, ixs), TotalBurntFor(s, ixs))
    decreases |ixs|
  {
    if ixs != [] {
      var t, rest := Next(s, ixs[0]), ixs[1..];
      RateStays(s, ixs);
      OneBuyback(s, ixs[0]);
      BuybacksCovered(t, rest);
      CoverAdds(s.config.solansRate, Reimbursed(s, ixs[0]), BurntFor(s, ixs[0]), TotalReimbursed(t, rest), TotalBurntFor(t, rest));
    }
  }
}
