/** Balances of lamports and of the two tokens, and the moves handlers make between them. */
module Ledger {
  import opened Prelude
  import opened Sums
  import opened Naming

  /** Addresses: wallets, and the program's derived accounts as injective constructors over their seeds. */
  datatype Account =
    | Wallet(owner: Pubkey)
    | OfferEscrow(name: NameId, buyer: Pubkey)
    | BidVault(name: NameId)
    | FeeVault(address: Pubkey)

  type Balances = map<Account, nat>

  function Get(b: Balances, a: Account): nat {
    if a in b then b[a] else 0
  }

  ghost function Total(b: Balances): int {
    Sum(b)
  }

  datatype Bank = Bank(lamports: Balances, payment: Balances, solans: Balances, supply: nat)

  datatype Move =
    | PayLamports(from: Account, to: Account, amount: nat)
    | DebitLamports(from: Account, to: Account, amount: nat)
    | CloseLamports(from: Account, to: Account)
    | PayTokens(from: Account, to: Account, amount: nat)
    | PaySolans(from: Account, to: Account, amount: nat)
    | BurnSolans(from: Account, amount: nat)
    | OpenVault(vault: Account)
    | CloseVault(vault: Account)

  /** A checked transfer; moving nothing is a no-op. */
  function Transfer(b: Balances, from: Account, to: Account, amount: nat): Option<Balances> {
    if amount == 0 then Some(b)
    else if Get(b, from) < amount then None
    else
      var debited := b[from := Get(b, from) - amount];
      Some(debited[to := Get(debited, to) + amount])
  }

  /** `move_lamports`: both balances are read before either is written. */
  function MoveLamports(b: Balances, from: Account, to: Account, amount: nat): Option<Balances> {
    if amount == 0 then Some(b)
    else if Get(b, from) < amount || Get(b, to) + amount > U64_MAX then None
    else Some(b[from := Get(b, from) - amount][to := Get(b, to) + amount])
  }

  function Burn(b: Balances, from: Account, amount: nat): Option<Balances> {
    if amount == 0 then Some(b)
    else if Get(b, from) < amount then None
    else Some(b[from := Get(b, from) - amount])
  }

  function MakeMove(bank: Bank, m: Move): Option<Bank> {
    match m
    case PayLamports(from, to, amount) =>
      var b :- Transfer(bank.lamports, from, to, amount); Some(bank.(lamports := b))
    case DebitLamports(from, to, amount) =>
      var b :- MoveLamports(bank.lamports, from, to, amount); Some(bank.(lamports := b))
    case CloseLamports(from, to) =>
      var b :- Transfer(bank.lamports, from, to, Get(bank.lamports, from)); Some(bank.(lamports := b))
    case PayTokens(from, to, amount) =>
      var b :- Transfer(bank.payment, from, to, amount); Some(bank.(payment := b))
    case PaySolans(from, to, amount) =>
      var b :- Transfer(bank.solans, from, to, amount); Some(bank.(solans := b))
    case BurnSolans(from, amount) =>
      var b :- Burn(bank.solans, from, amount);
      if amount > bank.supply then None else Some(bank.(solans := b, supply := bank.supply - amount))
    case OpenVault(vault) =>
      if vault in bank.solans then None else Some(bank.(solans := bank.solans[vault := 0]))
    case CloseVault(vault) =>
      if Get(bank.solans, vault) == 0 then Some(bank.(solans := bank.solans - {vault})) else None
  }

  /** All moves in order; one failure reverts the transaction. */
  function MakeMoves(bank: Bank, moves: seq<Move>): Option<Bank>
    decreases |moves|
  {
    if moves == [] then Some(bank)
    else
      var next :- MakeMove(bank, moves[0]);
      MakeMoves(next, moves[1..])
  }

  lemma OneMove(bank: Bank, m: Move)
    ensures MakeMoves(bank, [m]) == MakeMove(bank, m)
  {
    assert [m][1..] == [];
  }

  lemma TwoMoves(bank: Bank, m: Move, n: Move)
    requires MakeMove(bank, m).Some?
    ensures MakeMoves(bank, [m, n]) == MakeMove(MakeMove(bank, m).value, n)
  {
    assert [m, n][1..] == [n];
    OneMove(MakeMove(bank, m).value, n);
  }

  /** One more move on top of a bank that may already be a revert. */
  function AndThen(bank: Option<Bank>, m: Move): Option<Bank> {
    if bank.Some? then MakeMove(bank.value, m) else None
  }

  lemma FewMoves(bank: Bank, m: Move, n: Move)
    ensures MakeMoves(bank, [m, n]) == AndThen(MakeMove(bank, m), n)
  {
    if MakeMove(bank, m).Some? {
      TwoMoves(bank, m, n);
    }
  }

  lemma ThreeMoves(bank: Bank, m: Move, n: Move, o: Move)
    ensures MakeMoves(bank, [m, n] + [o]) == AndThen(AndThen(MakeMove(bank, m), n), o)
  {
    if MakeMove(bank, m).Some? {
      assert ([m, n] + [o])[1..] == [n, o];
      FewMoves(MakeMove(bank, m).value, n, o);
    }
  }

  lemma FourMoves(bank: Bank, m: Move, n: Move, o: Move, p: Move)
    ensures MakeMoves(bank, [m, n] + [o, p]) == AndThen(AndThen(AndThen(MakeMove(bank, m), n), o), p)
  {
    if MakeMove(bank, m).Some? {
      assert ([m, n] + [o, p])[1..] == [n, o] + [p];
      ThreeMoves(MakeMove(bank, m).value, n, o, p);
    }
  }

  // ----- conservation

  lemma SetTotal(b: Balances, a: Account, v: nat)
    ensures Total(b[a := v]) == Total(b) - Get(b, a) + v
  {
    SumSet(b, a, v);
  }

  lemma DropTotal(b: Balances, a: Account)
    requires Get(b, a) == 0
    ensures Total(b - {a}) == Total(b)
  {
    if a in b {
      SumRemove(b, a);
    } else {
      assert b - {a} == b;
    }
  }

  lemma TransferConserves(b: Balances, from: Account, to: Account, amount: nat)
    requires Transfer(b, from, to, amount).Some?
    ensures Total(Transfer(b, from, to, amount).value) == Total(b)
  {
    if amount > 0 {
      var debited := b[from := Get(b, from) - amount];
      SetTotal(b, from, Get(b, from) - amount);
      SetTotal(debited, to, Get(debited, to) + amount);
    }
  }

  /** Reading both balances first is only safe between different accounts: otherwise it mints the amount. */
  lemma MoveLamportsConserves(b: Balances, from: Account, to: Account, amount: nat)
    requires MoveLamports(b, from, to, amount).Some?
    ensures Total(MoveLamports(b, from, to, amount).value) == Total(b) <==> from != to || amount == 0
    ensures from == to ==> Total(MoveLamports(b, from, to, amount).value) == Total(b) + amount
  {
    if amount > 0 {
      var debited := b[from := Get(b, from) - amount];
      SetTotal(b, from, Get(b, from) - amount);
      SetTotal(debited, to, Get(b, to) + amount);
    }
  }

  lemma BurnDrops(b: Balances, from: Account, amount: nat)
    requires Burn(b, from, amount).Some?
    ensures Total(Burn(b, from, amount).value) == Total(b) - amount
  {
    if amount > 0 {
      SetTotal(b, from, Get(b, from) - amount);
    }
  }

  /** The three books balance: nothing is created, and `$SOLANS` only disappears from the supply. */
  ghost predicate SameTotals(before: Bank, after: Bank) {
    && Total(after.lamports) == Total(before.lamports)
    && Total(after.payment) == Total(before.payment)
    && Total(before.solans) - Total(after.solans) == before.supply - after.supply >= 0
  }

  predicate Proper(m: Move) {
    m.DebitLamports? ==> m.from != m.to
  }

  lemma MoveConserves(bank: Bank, m: Move)
    requires Proper(m) && MakeMove(bank, m).Some?
    ensures SameTotals(bank, MakeMove(bank, m).value)
  {
    match m
    case PayLamports(from, to, amount) => TransferConserves(bank.lamports, from, to, amount);
    case DebitLamports(from, to, amount) => MoveLamportsConserves(bank.lamports, from, to, amount);
    case CloseLamports(from, to) => TransferConserves(bank.lamports, from, to, Get(bank.lamports, from));
    case PayTokens(from, to, amount) => TransferConserves(bank.payment, from, to, amount);
    case PaySolans(from, to, amount) => TransferConserves(bank.solans, from, to, amount);
    case BurnSolans(from, amount) => BurnDrops(bank.solans, from, amount);
    case OpenVault(vault) => SetTotal(bank.solans, vault, 0);
    case CloseVault(vault) => DropTotal(bank.solans, vault);
  }

  lemma {:induction false} MovesConserve(bank: Bank, moves: seq<Move>)
    requires forall i :: 0 <= i < |moves| ==> Proper(moves[i])
    requires MakeMoves(bank, moves).Some?
    ensures SameTotals(bank, MakeMoves(bank, moves).value)
    decreases |moves|
  {
    if moves != [] {
      MoveConserves(bank, moves[0]);
      MovesConserve(MakeMove(bank, moves[0]).value, moves[1..]);
    }
  }

  // ----- what a list of moves leaves alone

  predicate TouchesSolans(m: Move, a: Account) {
    || (m.PaySolans? && (m.from == a || m.to == a))
    || (m.BurnSolans? && m.from == a)
  }

  predicate DrawsLamports(m: Move, a: Account) {
    (m.PayLamports? || m.DebitLamports? || m.CloseLamports?) && m.from == a
  }

  lemma {:induction false} SolansUntouched(bank: Bank, moves: seq<Move>, a: Account)
    requires forall i :: 0 <= i < |moves| ==> !TouchesSolans(moves[i], a)
    requires MakeMoves(bank, moves).Some?
    ensures Get(MakeMoves(bank, moves).value.solans, a) == Get(bank.solans, a)
    decreases |moves|
  {
    if moves != [] {
      SolansUntouched(MakeMove(bank, moves[0]).value, moves[1..], a);
    }
  }

  /** An account nobody draws on never loses lamports. */
  lemma {:induction false} LamportsNotDrawn(bank: Bank, moves: seq<Move>, a: Account)
    requires forall i :: 0 <= i < |moves| ==> !DrawsLamports(moves[i], a)
    requires MakeMoves(bank, moves).Some?
    ensures Get(MakeMoves(bank, moves).value.lamports, a) >= Get(bank.lamports, a)
    decreases |moves|
  {
    if moves != [] {
      LamportsNotDrawn(MakeMove(bank, moves[0]).value, moves[1..], a);
    }
  }
}
