/**
 * The registry as it is stored: accounts sit at 32-byte digests, and instructions carry digests
 * that handlers recompute. A run of it matches the name-keyed run, or the names the run deals in
 * contain a keccak collision.
 */
module HashedRegistry {
  import opened Prelude
  import opened Naming
  import opened Ledger
  import opened Economics
  import opened Registry
  import opened TreeSafety

  // ----- addresses

  /** Where a name's record is stored. */
  function Key(keccak: Keccak, id: NameId): NameId {
    Digest(NameHash(keccak, id))
  }

  /** The address of a subdomain, recomputed from its parent's address and the label. */
  function ChildKey(keccak: Keccak, parent: NameId, name: string): NameId {
    Digest(keccak(SubdomainPreimage(NameHash(keccak, parent), name)))
  }

  lemma ChildKeyIs(keccak: Keccak, parent: NameId, name: string)
    ensures ChildKey(keccak, Key(keccak, parent), name) == Key(keccak, Subdomain(parent, name))
  {
    assert NameHash(keccak, Key(keccak, parent)) == NameHash(keccak, parent);
    assert Preimage(keccak, Subdomain(parent, name)) == SubdomainPreimage(NameHash(keccak, parent), name);
  }

  // ----- the machine

  /** The name and TLD an operation hashes to compare with the record's stored digest. */
  function Hashed(op: NameOp, c: Cell): Option<NameId> {
    match op
    case Register(_, name, tld, _, _) => Some(TopLevel(name, tld))
    case Renew(name, tld, _, _) => Some(TopLevel(name, tld))
    case KeeperRenew(name, tld, _) => Some(TopLevel(name, tld))
    case Claim(_, name, tld, _, _) => Some(TopLevel(name, tld))
    case Tokenize(_, name, _) => if c.record.Some? then Some(TopLevel(name, c.record.value.tld)) else None
    case _ => None
  }

  /** A handler run against the account at `key`: digests are compared, never names. */
  function HashedPerform(keccak: Keccak, e: Env, key: NameId, c: Cell, op: NameOp): Option<Effect> {
    match Hashed(op, c)
    case Some(name) => if Digest(keccak(TopLevelPreimage(name.name, name.tld))) == key then Perform(e, name, c, op) else None
    case None => Perform(e, key, c, op)
  }

  function HashedStep(keccak: Keccak, s: State, ix: Instruction): Option<State> {
    match ix
    case OnName(key, op) =>
      var effect :- HashedPerform(keccak, EnvOf(s), key, CellOf(s, key), op);
      Paid(PutCell(s, key, effect.cell), effect.moves)
    case WrapSubdomain(signer, parent, name, owner) => WrapAt(s, signer, parent, ChildKey(keccak, parent, name), name, owner)
    case SetReverse(signer, key, name) =>
      if key !in s.records || Digest(keccak(TopLevelPreimage(name, s.records[key].tld))) != key then None
      else ReverseAt(s, signer, key, name)
    case _ => Step(s, ix)
  }

  function HashedNext(keccak: Keccak, s: State, ix: Instruction): State {
    match HashedStep(keccak, s, ix)
    case Some(t) => t
    case None => s
  }

  function HashedRun(keccak: Keccak, s: State, ixs: seq<Instruction>): State
    decreases |ixs|
  {
    if ixs == [] then s else HashedRun(keccak, HashedNext(keccak, s, ixs[0]), ixs[1..])
  }

  // ----- rekeying

  function RekeyRecord(keccak: Keccak, r: NameRecord): NameRecord {
    r.(parent := if r.parent.Some? then Some(Key(keccak, r.parent.value)) else None)
  }

  function RekeyCell(keccak: Keccak, c: Cell): Cell {
    c.(record := if c.record.Some? then Some(RekeyRecord(keccak, c.record.value)) else None)
  }

  function RekeyAccount(keccak: Keccak, a: Account): Account {
    match a
    case OfferEscrow(id, buyer) => OfferEscrow(Key(keccak, id), buyer)
    case BidVault(id) => BidVault(Key(keccak, id))
    case _ => a
  }

  function RekeyMove(keccak: Keccak, m: Move): Move {
    match m
    case PayLamports(from, to, amount) => PayLamports(RekeyAccount(keccak, from), RekeyAccount(keccak, to), amount)
    case DebitLamports(from, to, amount) => DebitLamports(RekeyAccount(keccak, from), RekeyAccount(keccak, to), amount)
    case CloseLamports(from, to) => CloseLamports(RekeyAccount(keccak, from), RekeyAccount(keccak, to))
    case PayTokens(from, to, amount) => PayTokens(RekeyAccount(keccak, from), RekeyAccount(keccak, to), amount)
    case PaySolans(from, to, amount) => PaySolans(RekeyAccount(keccak, from), RekeyAccount(keccak, to), amount)
    case BurnSolans(from, amount) => BurnSolans(RekeyAccount(keccak, from), amount)
    case OpenVault(vault) => OpenVault(RekeyAccount(keccak, vault))
    case CloseVault(vault) => CloseVault(RekeyAccount(keccak, vault))
  }

  function RekeyMoves(keccak: Keccak, moves: seq<Move>): (r: seq<Move>)
    ensures |r| == |moves|
    ensures forall i :: 0 <= i < |r| ==> r[i] == RekeyMove(keccak, moves[i])
  {
    if moves == [] then [] else [RekeyMove(keccak, moves[0])] + RekeyMoves(keccak, moves[1..])
  }

  function RekeyReverse(keccak: Keccak, r: Option<Reverse>): Option<Reverse> {
    if r.Some? then Some(r.value.(hash := Key(keccak, r.value.hash))) else None
  }

  /** The instruction as it is submitted: names become addresses. */
  function RekeyIx(keccak: Keccak, ix: Instruction): Instruction {
    match ix
    case OnName(id, op) => OnName(Key(keccak, id), op)
    case WrapSubdomain(signer, parent, name, owner) => WrapSubdomain(signer, Key(keccak, parent), name, owner)
    case RevokeSubdomain(signer, parent, child) => RevokeSubdomain(signer, Key(keccak, parent), Key(keccak, child))
    case SetReverse(signer, id, name) => SetReverse(signer, Key(keccak, id), name)
    case MakeOffer(buyer, id, amount, duration) => MakeOffer(buyer, Key(keccak, id), amount, duration)
    case AcceptOffer(signer, id, buyer) => AcceptOffer(signer, Key(keccak, id), buyer)
    case CancelOffer(signer, id, buyer, shown) =>
      CancelOffer(signer, Key(keccak, id), buyer, RekeyShown(keccak, shown))
    case Send(payment) => Send(RekeyMove(keccak, payment))
    case _ => ix
  }

  function RekeyIxs(keccak: Keccak, ixs: seq<Instruction>): seq<Instruction> {
    if ixs == [] then [] else [RekeyIx(keccak, ixs[0])] + RekeyIxs(keccak, ixs[1..])
  }

  // ----- the names a run deals in

  /**
   * `names` are the validated names of a run, ancestors included; `claims` the names that
   * `tokenize_name` and `set_reverse` hash without validating them.
   */
  datatype Scope = Scope(names: set<NameId>, claims: set<NameId>)

  ghost predicate ValidScope(scope: Scope) {
    && (forall id :: id in scope.names ==> ValidName(id) && (id.Subdomain? ==> id.parent in scope.names))
    && (forall c :: c in scope.claims ==> c.TopLevel?)
  }

  /** No two names of the scope that handlers compare share a digest. */
  ghost predicate Apart(keccak: Keccak, scope: Scope) {
    && (forall a, b :: a in scope.names && b in scope.names && Key(keccak, a) == Key(keccak, b) ==> a == b)
    && (forall c, id :: c in scope.claims && id in scope.names && Rivals(c, id) && Key(keccak, c) == Key(keccak, id) ==> c == id)
  }

  /** Two top-level names under one TLD. */
  predicate Rivals(c: NameId, id: NameId) {
    c.TopLevel? && id.TopLevel? && c.tld == id.tld
  }

  /** Fee accounts are ordinary token accounts, not escrows of the program. */
  predicate Plain(a: Account) {
    a.Wallet? || a.FeeVault?
  }

  predicate PlainConfig(c: Config) {
    Plain(c.treasury) && Plain(c.stakingVault) && Plain(c.burnVault)
  }

  predicate Over(scope: Scope, a: Account) {
    match a
    case OfferEscrow(id, _) => id in scope.names
    case BidVault(id) => id in scope.names
    case _ => true
  }

  predicate MoveOver(scope: Scope, m: Move) {
    match m
    case PayLamports(from, to, _) => Over(scope, from) && Over(scope, to)
    case DebitLamports(from, to, _) => Over(scope, from) && Over(scope, to)
    case CloseLamports(from, to) => Over(scope, from) && Over(scope, to)
    case PayTokens(from, to, _) => Over(scope, from) && Over(scope, to)
    case PaySolans(from, to, _) => Over(scope, from) && Over(scope, to)
    case BurnSolans(from, _) => Over(scope, from)
    case OpenVault(vault) => Over(scope, vault)
    case CloseVault(vault) => Over(scope, vault)
  }

  predicate PlainOp(op: NameOp) {
    match op
    case Register(_, _, _, _, InUsdc(_, Some(a))) => Plain(a)
    case Renew(_, _, _, InUsdc(_, Some(a))) => Plain(a)
    case Claim(_, _, _, _, Some(a)) => Plain(a)
    case _ => true
  }

  /** The scope holds every name the instruction is about, hashes or validates. */
  predicate InScope(scope: Scope, s: State, ix: Instruction) {
    match ix
    case OnName(id, op) =>
      && id in scope.names && PlainOp(op)
      && var hashed := Hashed(op, CellOf(s, id));
         hashed.Some? ==> if op.Tokenize? then hashed.value in scope.claims
                          else ValidName(hashed.value) ==> hashed.value in scope.names
    case WrapSubdomain(_, parent, name, _) =>
      parent in scope.names && (ValidLabel(name) ==> Subdomain(parent, name) in scope.names)
    case RevokeSubdomain(_, parent, child) => parent in scope.names && child in scope.names
    case SetReverse(_, id, name) => id in scope.names && (id in s.records ==> TopLevel(name, s.records[id].tld) in scope.claims)
    case MakeOffer(_, id, _, _) => id in scope.names
    case AcceptOffer(_, id, _) => id in scope.names
    case CancelOffer(_, id, _, shown) => id in scope.names && (shown.Some? ==> shown.value in scope.names)
    case Configure(config) => PlainConfig(config)
    case Send(payment) => MoveOver(scope, payment)
    case _ => true
  }

  predicate RunInScope(scope: Scope, s: State, ixs: seq<Instruction>)
    decreases |ixs|
  {
    ixs == [] || (InScope(scope, s, ixs[0]) && RunInScope(scope, Next(s, ixs[0]), ixs[1..]))
  }

  // ----- matching states

  ghost predicate BalancesMatch(keccak: Keccak, scope: Scope, b: Balances, c: Balances) {
    forall a :: Over(scope, a) ==> Lookup(c, RekeyAccount(keccak, a)) == Lookup(b, a)
  }

  ghost predicate BanksMatch(keccak: Keccak, scope: Scope, b: Bank, c: Bank) {
    && BalancesMatch(keccak, scope, b.lamports, c.lamports)
    && BalancesMatch(keccak, scope, b.payment, c.payment)
    && BalancesMatch(keccak, scope, b.solans, c.solans)
    && c.supply == b.supply
  }

  ghost predicate CellsMatch(keccak: Keccak, scope: Scope, s: State, t: State) {
    forall id :: id in scope.names ==> CellOf(t, Key(keccak, id)) == RekeyCell(keccak, CellOf(s, id))
  }

  ghost predicate OffersMatch(keccak: Keccak, scope: Scope, s: State, t: State) {
    forall id, buyer :: id in scope.names ==> Lookup(t.offers, (Key(keccak, id), buyer)) == Lookup(s.offers, (id, buyer))
  }

  ghost predicate ReversesMatch(keccak: Keccak, s: State, t: State) {
    forall w :: Lookup(t.reverses, w) == RekeyReverse(keccak, Lookup(s.reverses, w))
  }

  /** The stored state holds, at every name's address, what the name-keyed state holds for the name. */
  ghost predicate Matches(keccak: Keccak, scope: Scope, s: State, t: State) {
    && t.now == s.now && t.config == s.config
    && CellsMatch(keccak, scope, s, t)
    && OffersMatch(keccak, scope, s, t)
    && ReversesMatch(keccak, s, t)
    && BanksMatch(keccak, scope, s.bank, t.bank)
  }

  // ----- payments

  lemma AccountsApart(keccak: Keccak, scope: Scope, a: Account, b: Account)
    requires Apart(keccak, scope) && Over(scope, a) && Over(scope, b)
    ensures RekeyAccount(keccak, a) == RekeyAccount(keccak, b) <==> a == b
  {
  }

  lemma BalanceAt(keccak: Keccak, scope: Scope, b: Balances, c: Balances, a: Account)
    requires BalancesMatch(keccak, scope, b, c) && Over(scope, a)
    ensures Get(c, RekeyAccount(keccak, a)) == Get(b, a)
    ensures RekeyAccount(keccak, a) in c <==> a in b
  {
    assert Lookup(c, RekeyAccount(keccak, a)) == Lookup(b, a);
  }

  /** Writing, creating or closing one account. */
  lemma PutMatches(keccak: Keccak, scope: Scope, b: Balances, c: Balances, a: Account, v: Option<nat>)
    requires Apart(keccak, scope) && BalancesMatch(keccak, scope, b, c) && Over(scope, a)
    ensures BalancesMatch(keccak, scope, Put(b, a, v), Put(c, RekeyAccount(keccak, a), v))
  {
    forall x | Over(scope, x) ensures Lookup(Put(c, RekeyAccount(keccak, a), v), RekeyAccount(keccak, x)) == Lookup(Put(b, a, v), x) {
      AccountsApart(keccak, scope, a, x);
      assert Lookup(c, RekeyAccount(keccak, x)) == Lookup(b, x);
    }
  }

  lemma SetMatches(keccak: Keccak, scope: Scope, b: Balances, c: Balances, a: Account, v: nat)
    requires Apart(keccak, scope) && BalancesMatch(keccak, scope, b, c) && Over(scope, a)
    ensures BalancesMatch(keccak, scope, b[a := v], c[RekeyAccount(keccak, a) := v])
  {
    PutMatches(keccak, scope, b, c, a, Some(v));
  }

  lemma TransferMatches(keccak: Keccak, scope: Scope, b: Balances, c: Balances, from: Account, to: Account, amount: nat)
    requires Apart(keccak, scope) && BalancesMatch(keccak, scope, b, c) && Over(scope, from) && Over(scope, to)
    ensures var x, y := Transfer(b, from, to, amount), Transfer(c, RekeyAccount(keccak, from), RekeyAccount(keccak, to), amount);
            (x.Some? <==> y.Some?) && (x.Some? ==> BalancesMatch(keccak, scope, x.value, y.value))
  {
    var from', to' := RekeyAccount(keccak, from), RekeyAccount(keccak, to);
    BalanceAt(keccak, scope, b, c, from);
    if 0 < amount <= Get(b, from) {
      var left := Get(b, from) - amount;
      SetMatches(keccak, scope, b, c, from, left);
      DepositMatches(keccak, scope, b[from := left], c[from' := left], to, amount);
    }
  }

  lemma DepositMatches(keccak: Keccak, scope: Scope, b: Balances, c: Balances, to: Account, amount: nat)
    requires Apart(keccak, scope) && BalancesMatch(keccak, scope, b, c) && Over(scope, to)
    ensures BalancesMatch(keccak, scope, b[to := Get(b, to) + amount],
                          c[RekeyAccount(keccak, to) := Get(c, RekeyAccount(keccak, to)) + amount])
  {
    BalanceAt(keccak, scope, b, c, to);
    SetMatches(keccak, scope, b, c, to, Get(b, to) + amount);
  }

  lemma MoveLamportsMatches(keccak: Keccak, scope: Scope, b: Balances, c: Balances, from: Account, to: Account, amount: nat)
    requires Apart(keccak, scope) && BalancesMatch(keccak, scope, b, c) && Over(scope, from) && Over(scope, to)
    ensures var x, y := MoveLamports(b, from, to, amount), MoveLamports(c, RekeyAccount(keccak, from), RekeyAccount(keccak, to), amount);
            (x.Some? <==> y.Some?) && (x.Some? ==> BalancesMatch(keccak, scope, x.value, y.value))
  {
    BalanceAt(keccak, scope, b, c, from);
    BalanceAt(keccak, scope, b, c, to);
    if 0 < amount <= Get(b, from) {
      var left := Get(b, from) - amount;
      SetMatches(keccak, scope, b, c, from, left);
      SetMatches(keccak, scope, b[from := left], c[RekeyAccount(keccak, from) := left], to, Get(b, to) + amount);
    }
  }

  lemma BurnMatches(keccak: Keccak, scope: Scope, b: Balances, c: Balances, from: Account, amount: nat)
    requires Apart(keccak, scope) && BalancesMatch(keccak, scope, b, c) && Over(scope, from)
    ensures var x, y := Burn(b, from, amount), Burn(c, RekeyAccount(keccak, from), amount);
            (x.Some? <==> y.Some?) && (x.Some? ==> BalancesMatch(keccak, scope, x.value, y.value))
  {
    BalanceAt(keccak, scope, b, c, from);
    if 0 < amount <= Get(b, from) {
      SetMatches(keccak, scope, b, c, from, Get(b, from) - amount);
    }
  }

  ghost predicate BothMatch(keccak: Keccak, scope: Scope, x: Option<Bank>, y: Option<Bank>) {
    (x.Some? <==> y.Some?) && (x.Some? ==> BanksMatch(keccak, scope, x.value, y.value))
  }

  lemma MoveMatches(keccak: Keccak, scope: Scope, b: Bank, c: Bank, m: Move)
    requires Apart(keccak, scope) && BanksMatch(keccak, scope, b, c) && MoveOver(scope, m)
    ensures BothMatch(keccak, scope, MakeMove(b, m), MakeMove(c, RekeyMove(keccak, m)))
  {
    match m
    case PayLamports(from, to, amount) => TransferMatches(keccak, scope, b.lamports, c.lamports, from, to, amount);
    case DebitLamports(from, to, amount) => MoveLamportsMatches(keccak, scope, b.lamports, c.lamports, from, to, amount);
    case CloseLamports(from, to) =>
      BalanceAt(keccak, scope, b.lamports, c.lamports, from);
      TransferMatches(keccak, scope, b.lamports, c.lamports, from, to, Get(b.lamports, from));
    case PayTokens(from, to, amount) => TransferMatches(keccak, scope, b.payment, c.payment, from, to, amount);
    case PaySolans(from, to, amount) => TransferMatches(keccak, scope, b.solans, c.solans, from, to, amount);
    case BurnSolans(from, amount) => BurnMatches(keccak, scope, b.solans, c.solans, from, amount);
    case OpenVault(vault) =>
      BalanceAt(keccak, scope, b.solans, c.solans, vault);
      PutMatches(keccak, scope, b.solans, c.solans, vault, Some(0));
    case CloseVault(vault) =>
      BalanceAt(keccak, scope, b.solans, c.solans, vault);
      PutMatches(keccak, scope, b.solans, c.solans, vault, None);
  }

  predicate AllOver(scope: Scope, moves: seq<Move>) {
    forall i :: 0 <= i < |moves| ==> MoveOver(scope, moves[i])
  }

  lemma {:induction false} MovesMatch(keccak: Keccak, scope: Scope, b: Bank, c: Bank, moves: seq<Move>)
    requires Apart(keccak, scope) && BanksMatch(keccak, scope, b, c) && AllOver(scope, moves)
    ensures BothMatch(keccak, scope, MakeMoves(b, moves), MakeMoves(c, RekeyMoves(keccak, moves)))
    decreases |moves|
  {
    if moves != [] {
      MoveMatches(keccak, scope, b, c, moves[0]);
      var rest := RekeyMoves(keccak, moves[1..]);
      assert RekeyMoves(keccak, moves)[1..] == rest;
      if MakeMove(b, moves[0]).Some? {
        MovesMatch(keccak, scope, MakeMove(b, moves[0]).value, MakeMove(c, RekeyMove(keccak, moves[0])).value, moves[1..]);
      }
    }
  }

  // ----- one operation

  lemma RekeyMovesAre(keccak: Keccak, moves: seq<Move>, after: seq<Move>)
    requires |after| == |moves| && forall i :: 0 <= i < |moves| ==> after[i] == RekeyMove(keccak, moves[i])
    ensures RekeyMoves(keccak, moves) == after
  {
  }

  lemma FeesPlain(keccak: Keccak, scope: Scope, c: Config, name: string, years: nat, payment: Payment)
    requires PlainConfig(c) && (payment.InUsdc? && payment.referral.Some? ==> Plain(payment.referral.value))
    requires TermMoves(c, name, years, payment).Some?
    ensures RekeyMoves(keccak, TermMoves(c, name, years, payment).value) == TermMoves(c, name, years, payment).value
    ensures AllOver(scope, TermMoves(c, name, years, payment).value)
  {
    var moves := TermMoves(c, name, years, payment).value;
    RekeyMovesAre(keccak, moves, moves);
  }

  function RekeyEffect(keccak: Keccak, effect: Option<Effect>): Option<Effect> {
    if effect.Some? then Some(Effect(RekeyCell(keccak, effect.value.cell), RekeyMoves(keccak, effect.value.moves))) else None
  }

  ghost predicate SameEffect(keccak: Keccak, scope: Scope, x: Option<Effect>, y: Option<Effect>) {
    && y == RekeyEffect(keccak, x)
    && (x.Some? ==> AllOver(scope, x.value.moves))
  }

  /** Fees go to plain accounts, so a term operation differs only in the record it stores. */
  lemma TermEffects(keccak: Keccak, scope: Scope, c: Config, cell: Cell, r: Option<NameRecord>, name: string, years: nat, payment: Payment)
    requires PlainConfig(c) && (payment.InUsdc? && payment.referral.Some? ==> Plain(payment.referral.value))
    ensures SameEffect(keccak, scope, TermEffect(cell, r, TermMoves(c, name, years, payment)),
                       TermEffect(RekeyCell(keccak, cell), if r.Some? then Some(RekeyRecord(keccak, r.value)) else None,
                                  TermMoves(c, name, years, payment)))
  {
    if TermMoves(c, name, years, payment).Some? {
      FeesPlain(keccak, scope, c, name, years, payment);
    }
  }

  function TermEffect(cell: Cell, r: Option<NameRecord>, moves: Option<seq<Move>>): Option<Effect> {
    if r.Some? && moves.Some? then Some(Effect(cell.(record := Some(r.value)), moves.value)) else None
  }

  lemma RegisterMatches(keccak: Keccak, scope: Scope, e: Env, id: NameId, c: Cell, op: NameOp)
    requires op.Register? && PlainConfig(e.config) && PlainOp(op)
    ensures SameEffect(keccak, scope, Perform(e, id, c, op), Perform(e, id, RekeyCell(keccak, c), op))
  {
    var r := Registration(e, id, c, op.owner, op.name, op.tld, op.years);
    assert Registration(e, id, RekeyCell(keccak, c), op.owner, op.name, op.tld, op.years) == r;
    TermEffects(keccak, scope, e.config, c, r, op.name, op.years, op.payment);
  }

  lemma RenewMatches(keccak: Keccak, scope: Scope, e: Env, id: NameId, c: Cell, op: NameOp)
    requires op.Renew? && PlainConfig(e.config) && PlainOp(op)
    ensures SameEffect(keccak, scope, Perform(e, id, c, op), Perform(e, id, RekeyCell(keccak, c), op))
  {
    var r := Extended(e, id, c, op.name, op.tld, op.years);
    assert Extended(e, id, RekeyCell(keccak, c), op.name, op.tld, op.years)
        == if r.Some? then Some(RekeyRecord(keccak, r.value)) else None;
    TermEffects(keccak, scope, e.config, c, r, op.name, op.years, op.payment);
  }

  lemma KeeperRenewMatches(keccak: Keccak, scope: Scope, e: Env, id: NameId, c: Cell, op: NameOp)
    requires op.KeeperRenew? && PlainConfig(e.config)
    ensures SameEffect(keccak, scope, Perform(e, id, c, op), Perform(e, id, RekeyCell(keccak, c), op))
  {
    var r := Extended(e, id, c, op.name, op.tld, op.years);
    assert Extended(e, id, RekeyCell(keccak, c), op.name, op.tld, op.years)
        == if r.Some? then Some(RekeyRecord(keccak, r.value)) else None;
    if r.Some? {
      TermEffects(keccak, scope, e.config, c, r, op.name, op.years, InUsdc(c.record.value.owner, None));
    }
  }

  lemma ClaimMatches(keccak: Keccak, scope: Scope, e: Env, id: NameId, c: Cell, op: NameOp)
    requires op.Claim? && PlainConfig(e.config) && PlainOp(op)
    ensures SameEffect(keccak, scope, Perform(e, id, c, op), Perform(e, id, RekeyCell(keccak, c), op))
  {
    var r := Takeover(e, id, c, op.claimer, op.name, op.tld, op.years);
    assert Takeover(e, id, RekeyCell(keccak, c), op.claimer, op.name, op.tld, op.years) == r;
    TermEffects(keccak, scope, e.config, c, r, op.name, op.years, InUsdc(op.claimer, op.referral));
  }

  lemma TermMatches(keccak: Keccak, scope: Scope, e: Env, id: NameId, c: Cell, op: NameOp)
    requires TermOp(op) && PlainConfig(e.config) && PlainOp(op)
    ensures SameEffect(keccak, scope, Perform(e, id, c, op), Perform(e, id, RekeyCell(keccak, c), op))
  {
    match op
    case Register(_, _, _, _, _) => RegisterMatches(keccak, scope, e, id, c, op);
    case Renew(_, _, _, _) => RenewMatches(keccak, scope, e, id, c, op);
    case KeeperRenew(_, _, _) => KeeperRenewMatches(keccak, scope, e, id, c, op);
    case Claim(_, _, _, _, _) => ClaimMatches(keccak, scope, e, id, c, op);
  }

  /** Operations on the record do not look at the key, but for the name a tokenization hashes. */
  lemma RecordMatches(keccak: Keccak, scope: Scope, e: Env, id: NameId, key: NameId, c: Cell, op: NameOp)
    requires RecordOp(op) && (op.Tokenize? ==> key == id)
    ensures SameEffect(keccak, scope, Perform(e, id, c, op), Perform(e, key, RekeyCell(keccak, c), op))
  {
  }

  lemma ListingMatches(keccak: Keccak, scope: Scope, e: Env, id: NameId, c: Cell, op: NameOp)
    requires ListingOp(op)
    ensures SameEffect(keccak, scope, Perform(e, id, c, op), Perform(e, Key(keccak, id), RekeyCell(keccak, c), op))
  {
    if op.Buy? && c.listing.Some? {
      var moves := SaleMoves(e.config, op.buyer, c.listing.value.seller, c.listing.value.price);
      RekeyMovesAre(keccak, moves, moves);
    }
  }

  lemma BidMatches(keccak: Keccak, scope: Scope, id: NameId, a: Auction, bidder: Pubkey, amount: nat)
    requires id in scope.names
    ensures RekeyMoves(keccak, BidMoves(id, a, bidder, amount)) == BidMoves(Key(keccak, id), a, bidder, amount)
    ensures AllOver(scope, BidMoves(id, a, bidder, amount))
  {
    RekeyMovesAre(keccak, BidMoves(id, a, bidder, amount), BidMoves(Key(keccak, id), a, bidder, amount));
  }

  lemma SettleMatches(keccak: Keccak, scope: Scope, c: Config, id: NameId, a: Auction)
    requires id in scope.names
    ensures RekeyMoves(keccak, SettleMoves(c, id, a)) == SettleMoves(c, Key(keccak, id), a)
    ensures AllOver(scope, SettleMoves(c, id, a))
  {
    RekeyMovesAre(keccak, SettleMoves(c, id, a), SettleMoves(c, Key(keccak, id), a));
  }

  lemma BiddingMatches(keccak: Keccak, scope: Scope, e: Env, id: NameId, c: Cell, op: NameOp)
    requires op.PlaceBid? && id in scope.names
    ensures SameEffect(keccak, scope, Perform(e, id, c, op), Perform(e, Key(keccak, id), RekeyCell(keccak, c), op))
  {
    if c.auction.Some? {
      BidMatches(keccak, scope, id, c.auction.value, op.bidder, op.amount);
    }
  }

  lemma CallOffMatches(keccak: Keccak, scope: Scope, e: Env, id: NameId, c: Cell, op: NameOp)
    requires op.CallOff? && id in scope.names
    ensures SameEffect(keccak, scope, Perform(e, id, c, op), Perform(e, Key(keccak, id), RekeyCell(keccak, c), op))
  {
    RekeyMovesAre(keccak, [CloseVault(BidVault(id))], [CloseVault(BidVault(Key(keccak, id)))]);
  }

  /** The cell a settlement leaves. */
  function Settled(c: Cell): Cell
    requires c.record.Some? && c.auction.Some?
  {
    var r, a := c.record.value, c.auction.value;
    var after := if a.highestBidder.Some? then HandedTo(r, a.highestBidder.value) else r;
    c.(record := Some(after.(listed := false)), auction := None)
  }

  predicate Settles(e: Env, c: Cell) {
    c.record.Some? && c.auction.Some? && e.now >= c.auction.value.endTime
  }

  lemma SettleIs(e: Env, id: NameId, c: Cell)
    ensures Perform(e, id, c, Settle)
            == if Settles(e, c) then Some(Effect(Settled(c), SettleMoves(e.config, id, c.auction.value))) else None
  {
  }

  lemma SettledRekeyed(keccak: Keccak, c: Cell)
    requires c.record.Some? && c.auction.Some?
    ensures Settled(RekeyCell(keccak, c)) == RekeyCell(keccak, Settled(c))
  {
  }

  lemma SettlingMatches(keccak: Keccak, scope: Scope, e: Env, id: NameId, c: Cell, key: NameId, d: Cell)
    requires id in scope.names && key == Key(keccak, id) && d == RekeyCell(keccak, c)
    ensures SameEffect(keccak, scope, Perform(e, id, c, Settle), Perform(e, key, d, Settle))
  {
    SettleIs(e, id, c);
    SettleIs(e, key, d);
    if Settles(e, c) {
      SettledRekeyed(keccak, c);
      SettleMatches(keccak, scope, e.config, id, c.auction.value);
    }
  }

  lemma AuctionMatches(keccak: Keccak, scope: Scope, e: Env, id: NameId, c: Cell, op: NameOp)
    requires AuctionOp(op) && id in scope.names
    ensures SameEffect(keccak, scope, Perform(e, id, c, op), Perform(e, Key(keccak, id), RekeyCell(keccak, c), op))
  {
    if op.OpenAuction? {
      RekeyMovesAre(keccak, [OpenVault(BidVault(id))], [OpenVault(BidVault(Key(keccak, id)))]);
    } else if op.PlaceBid? {
      BiddingMatches(keccak, scope, e, id, c, op);
    } else if op.Settle? {
      SettlingMatches(keccak, scope, e, id, c, Key(keccak, id), RekeyCell(keccak, c));
    } else if op.CallOff? {
      CallOffMatches(keccak, scope, e, id, c, op);
    }
  }

  lemma TermNeedsItsName(e: Env, id: NameId, c: Cell, op: NameOp)
    requires TermOp(op) && Hashed(op, c).Some? && (Hashed(op, c).value != id || !ValidName(id))
    ensures Perform(e, id, c, op).None?
  {
  }

  ghost predicate Stage(keccak: Keccak, scope: Scope, s: State, t: State) {
    && ValidScope(scope) && Apart(keccak, scope)
    && TreeInv(s) && PlainConfig(s.config)
    && Matches(keccak, scope, s, t)
  }

  lemma TermOpMatches(keccak: Keccak, scope: Scope, s: State, t: State, id: NameId, op: NameOp)
    requires Stage(keccak, scope, s, t) && InScope(scope, s, OnName(id, op)) && TermOp(op)
    ensures SameEffect(keccak, scope, Perform(EnvOf(s), id, CellOf(s, id), op),
                       HashedPerform(keccak, EnvOf(s), Key(keccak, id), RekeyCell(keccak, CellOf(s, id)), op))
  {
    var c := CellOf(s, id);
    var name := Hashed(op, c).value;
    assert NameHash(keccak, name) == keccak(TopLevelPreimage(name.name, name.tld));
    if name == id {
      TermMatches(keccak, scope, EnvOf(s), id, c, op);
    } else {
      TermNeedsItsName(EnvOf(s), id, c, op);
      if !ValidName(name) {
        TermNeedsItsName(EnvOf(s), name, RekeyCell(keccak, c), op);
      }
    }
  }

  /** Comparing the digest of an unvalidated name with a record's address decides whether the record carries the name. */
  lemma ClaimDecides(keccak: Keccak, scope: Scope, s: State, id: NameId, name: string)
    requires ValidScope(scope) && Apart(keccak, scope) && TreeInv(s) && id in scope.names && id in s.records
    requires TopLevel(name, s.records[id].tld) in scope.claims && s.records[id].parent.None?
    ensures Digest(keccak(TopLevelPreimage(name, s.records[id].tld))) == Key(keccak, id) <==> id == TopLevel(name, s.records[id].tld)
  {
    var claim := TopLevel(name, s.records[id].tld);
    assert WellPlaced(s.now, id, s.records[id]);
    assert NameHash(keccak, claim) == keccak(TopLevelPreimage(name, claim.tld));
    assert Rivals(claim, id);
  }

  lemma TokenizeAt(keccak: Keccak, scope: Scope, e: Env, id: NameId, c: Cell, op: NameOp)
    requires op.Tokenize?
    requires c.record.Some? && c.record.value.parent.None? ==>
               (Digest(keccak(TopLevelPreimage(op.name, c.record.value.tld))) == Key(keccak, id) <==> id == TopLevel(op.name, c.record.value.tld))
    ensures SameEffect(keccak, scope, Perform(e, id, c, op), HashedPerform(keccak, e, Key(keccak, id), RekeyCell(keccak, c), op))
  {
  }

  lemma TokenizeMatches(keccak: Keccak, scope: Scope, s: State, t: State, id: NameId, op: NameOp)
    requires Stage(keccak, scope, s, t) && InScope(scope, s, OnName(id, op)) && op.Tokenize?
    ensures SameEffect(keccak, scope, Perform(EnvOf(s), id, CellOf(s, id), op),
                       HashedPerform(keccak, EnvOf(s), Key(keccak, id), RekeyCell(keccak, CellOf(s, id)), op))
  {
    if id in s.records && s.records[id].parent.None? {
      ClaimDecides(keccak, scope, s, id, op.name);
    }
    TokenizeAt(keccak, scope, EnvOf(s), id, CellOf(s, id), op);
  }

  lemma OpMatches(keccak: Keccak, scope: Scope, s: State, t: State, id: NameId, op: NameOp)
    requires Stage(keccak, scope, s, t) && InScope(scope, s, OnName(id, op))
    ensures SameEffect(keccak, scope, Perform(EnvOf(s), id, CellOf(s, id), op),
                       HashedPerform(keccak, EnvOf(s), Key(keccak, id), RekeyCell(keccak, CellOf(s, id)), op))
  {
    var c := CellOf(s, id);
    if TermOp(op) {
      TermOpMatches(keccak, scope, s, t, id, op);
    } else if op.Tokenize? {
      TokenizeMatches(keccak, scope, s, t, id, op);
    } else if RecordOp(op) {
      RecordMatches(keccak, scope, EnvOf(s), id, Key(keccak, id), c, op);
    } else if ListingOp(op) {
      ListingMatches(keccak, scope, EnvOf(s), id, c, op);
    } else {
      AuctionMatches(keccak, scope, EnvOf(s), id, c, op);
    }
  }

  // ----- one instruction

  ghost predicate BothStates(keccak: Keccak, scope: Scope, x: Option<State>, y: Option<State>) {
    (x.Some? <==> y.Some?) && (x.Some? ==> Matches(keccak, scope, x.value, y.value))
  }

  lemma CellStored(keccak: Keccak, scope: Scope, s: State, t: State, id: NameId, c: Cell)
    requires Apart(keccak, scope) && Matches(keccak, scope, s, t) && id in scope.names
    ensures Matches(keccak, scope, PutCell(s, id, c), PutCell(t, Key(keccak, id), RekeyCell(keccak, c)))
  {
    var s', t' := PutCell(s, id, c), PutCell(t, Key(keccak, id), RekeyCell(keccak, c));
    forall x | x in scope.names ensures CellOf(t', Key(keccak, x)) == RekeyCell(keccak, CellOf(s', x)) {
      PutCellOther(s, id, c, x);
      PutCellOther(t, Key(keccak, id), RekeyCell(keccak, c), Key(keccak, x));
      assert CellOf(t, Key(keccak, x)) == RekeyCell(keccak, CellOf(s, x));
    }
  }

  lemma PaidMatches(keccak: Keccak, scope: Scope, s: State, t: State, moves: seq<Move>)
    requires Apart(keccak, scope) && Matches(keccak, scope, s, t) && AllOver(scope, moves)
    ensures BothStates(keccak, scope, Paid(s, moves), Paid(t, RekeyMoves(keccak, moves)))
  {
    MovesMatch(keccak, scope, s.bank, t.bank, moves);
  }

  /** The states after an effect and its rekeyed copy. */
  lemma EffectMatches(keccak: Keccak, scope: Scope, s: State, t: State, id: NameId, effect: Effect)
    requires Apart(keccak, scope) && Matches(keccak, scope, s, t) && id in scope.names && AllOver(scope, effect.moves)
    ensures BothStates(keccak, scope, Paid(PutCell(s, id, effect.cell), effect.moves),
                       Paid(PutCell(t, Key(keccak, id), RekeyCell(keccak, effect.cell)), RekeyMoves(keccak, effect.moves)))
  {
    CellStored(keccak, scope, s, t, id, effect.cell);
    PaidMatches(keccak, scope, PutCell(s, id, effect.cell), PutCell(t, Key(keccak, id), RekeyCell(keccak, effect.cell)), effect.moves);
  }

  lemma HashedOnNameIs(keccak: Keccak, s: State, key: NameId, op: NameOp, effect: Option<Effect>)
    requires effect == HashedPerform(keccak, EnvOf(s), key, CellOf(s, key), op)
    ensures HashedStep(keccak, s, OnName(key, op))
            == if effect.Some? then Paid(PutCell(s, key, effect.value.cell), effect.value.moves) else None
  {
  }

  lemma OnNameMatches(keccak: Keccak, scope: Scope, s: State, t: State, id: NameId, op: NameOp)
    requires Stage(keccak, scope, s, t) && InScope(scope, s, OnName(id, op))
    ensures BothStates(keccak, scope, Step(s, OnName(id, op)), HashedStep(keccak, t, OnName(Key(keccak, id), op)))
  {
    var x := Perform(EnvOf(s), id, CellOf(s, id), op);
    OpMatches(keccak, scope, s, t, id, op);
    assert CellOf(t, Key(keccak, id)) == RekeyCell(keccak, CellOf(s, id)) && EnvOf(t) == EnvOf(s);
    OnNameIs(s, id, op, x);
    HashedOnNameIs(keccak, t, Key(keccak, id), op, RekeyEffect(keccak, x));
    if x.Some? {
      EffectMatches(keccak, scope, s, t, id, x.value);
    }
  }

  /** The record of a name, in both states. */
  lemma RecordAt(keccak: Keccak, scope: Scope, s: State, t: State, id: NameId)
    requires Matches(keccak, scope, s, t) && id in scope.names
    ensures Key(keccak, id) in t.records <==> id in s.records
    ensures id in s.records ==> t.records[Key(keccak, id)] == RekeyRecord(keccak, s.records[id])
  {
    assert CellOf(t, Key(keccak, id)) == RekeyCell(keccak, CellOf(s, id));
  }

  lemma RecordStored(keccak: Keccak, scope: Scope, s: State, t: State, id: NameId, r: NameRecord)
    requires Apart(keccak, scope) && Matches(keccak, scope, s, t) && id in scope.names
    ensures Matches(keccak, scope, s.(records := s.records[id := r]), t.(records := t.records[Key(keccak, id) := RekeyRecord(keccak, r)]))
  {
    var c := CellOf(s, id).(record := Some(r));
    CellStored(keccak, scope, s, t, id, c);
    assert CellOf(t, Key(keccak, id)) == RekeyCell(keccak, CellOf(s, id));
    OnlyRecordStored(s, id, Some(r));
    OnlyRecordStored(t, Key(keccak, id), Some(RekeyRecord(keccak, r)));
  }

  lemma RecordDropped(keccak: Keccak, scope: Scope, s: State, t: State, id: NameId)
    requires Apart(keccak, scope) && Matches(keccak, scope, s, t) && id in scope.names
    ensures Matches(keccak, scope, s.(records := s.records - {id}), t.(records := t.records - {Key(keccak, id)}))
  {
    var c := CellOf(s, id).(record := None);
    CellStored(keccak, scope, s, t, id, c);
    assert CellOf(t, Key(keccak, id)) == RekeyCell(keccak, CellOf(s, id));
    OnlyRecordStored(s, id, None);
    OnlyRecordStored(t, Key(keccak, id), None);
  }

  lemma OnlyRecordStored(s: State, id: NameId, r: Option<NameRecord>)
    ensures PutCell(s, id, CellOf(s, id).(record := r)) == s.(records := Put(s.records, id, r))
  {
    PutLookup(s.listings, id);
    PutLookup(s.auctions, id);
  }

  lemma WrapMatches(keccak: Keccak, scope: Scope, s: State, t: State, signer: Pubkey, parent: NameId, name: string, owner: Pubkey)
    requires Apart(keccak, scope) && Matches(keccak, scope, s, t)
    requires parent in scope.names && (ValidLabel(name) ==> Subdomain(parent, name) in scope.names)
    ensures BothStates(keccak, scope, WrapStep(s, signer, parent, name, owner),
                       WrapAt(t, signer, Key(keccak, parent), ChildKey(keccak, Key(keccak, parent), name), name, owner))
  {
    RecordAt(keccak, scope, s, t, parent);
    ChildKeyIs(keccak, parent, name);
    if ValidLabel(name) && parent in s.records {
      var child := Subdomain(parent, name);
      var r := NewSubdomain(owner, s.now, s.records[parent], parent);
      RecordAt(keccak, scope, s, t, child);
      RecordStored(keccak, scope, s, t, child, r);
      assert RekeyRecord(keccak, r) == NewSubdomain(owner, t.now, t.records[Key(keccak, parent)], Key(keccak, parent));
    }
  }

  lemma RevokeMatches(keccak: Keccak, scope: Scope, s: State, t: State, signer: Pubkey, parent: NameId, child: NameId)
    requires Apart(keccak, scope) && Matches(keccak, scope, s, t)
    requires parent in scope.names && child in scope.names
    requires child in s.records && s.records[child].parent.Some? ==> s.records[child].parent.value in scope.names
    ensures BothStates(keccak, scope, RevokeStep(s, signer, parent, child), RevokeStep(t, signer, Key(keccak, parent), Key(keccak, child)))
  {
    RecordAt(keccak, scope, s, t, parent);
    RecordAt(keccak, scope, s, t, child);
    if child in s.records {
      RecordDropped(keccak, scope, s, t, child);
    }
  }

  lemma ReverseStored(keccak: Keccak, scope: Scope, s: State, t: State, w: Pubkey, r: Reverse)
    requires Matches(keccak, scope, s, t)
    ensures Matches(keccak, scope, s.(reverses := s.reverses[w := r]), t.(reverses := t.reverses[w := r.(hash := Key(keccak, r.hash))]))
  {
    var b, c := s.reverses[w := r], t.reverses[w := r.(hash := Key(keccak, r.hash))];
    forall x ensures Lookup(c, x) == RekeyReverse(keccak, Lookup(b, x)) {
      assert Lookup(t.reverses, x) == RekeyReverse(keccak, Lookup(s.reverses, x));
    }
  }

  lemma ReverseMatches(keccak: Keccak, scope: Scope, s: State, t: State, signer: Pubkey, id: NameId, name: string)
    requires Apart(keccak, scope) && Matches(keccak, scope, s, t) && id in scope.names
    ensures BothStates(keccak, scope, ReverseAt(s, signer, id, name), ReverseAt(t, signer, Key(keccak, id), name))
  {
    RecordAt(keccak, scope, s, t, id);
    if id in s.records {
      var r, key := s.records[id], Key(keccak, id);
      var after := r.(reverseSet := true);
      RecordStored(keccak, scope, s, t, id, after);
      assert RekeyRecord(keccak, after) == t.records[key].(reverseSet := true);
      ReverseStored(keccak, scope, s.(records := s.records[id := after]), t.(records := t.records[key := RekeyRecord(keccak, after)]),
                    signer, Reverse(id, name, r.tld));
    }
  }

  // ----- offers

  lemma OffersChange(keccak: Keccak, scope: Scope, s: State, t: State, o: map<(NameId, Pubkey), Offer>, o': map<(NameId, Pubkey), Offer>)
    requires Matches(keccak, scope, s, t) && OffersMatch(keccak, scope, s.(offers := o), t.(offers := o'))
    ensures Matches(keccak, scope, s.(offers := o), t.(offers := o'))
  {
    forall id | id in scope.names ensures CellOf(t.(offers := o'), Key(keccak, id)) == RekeyCell(keccak, CellOf(s.(offers := o), id)) {
      assert CellOf(t, Key(keccak, id)) == RekeyCell(keccak, CellOf(s, id));
    }
  }

  lemma OfferPut(keccak: Keccak, scope: Scope, s: State, t: State, id: NameId, buyer: Pubkey, offer: Option<Offer>)
    requires Apart(keccak, scope) && OffersMatch(keccak, scope, s, t) && id in scope.names
    ensures OffersMatch(keccak, scope, s.(offers := Put(s.offers, (id, buyer), offer)),
                        t.(offers := Put(t.offers, (Key(keccak, id), buyer), offer)))
  {
    forall x, b | x in scope.names
      ensures Lookup(Put(t.offers, (Key(keccak, id), buyer), offer), (Key(keccak, x), b))
           == Lookup(Put(s.offers, (id, buyer), offer), (x, b))
    {
      assert Lookup(t.offers, (Key(keccak, x), b)) == Lookup(s.offers, (x, b));
    }
  }

  lemma OfferStored(keccak: Keccak, scope: Scope, s: State, t: State, id: NameId, buyer: Pubkey, offer: Option<Offer>)
    requires Apart(keccak, scope) && Matches(keccak, scope, s, t) && id in scope.names
    ensures Matches(keccak, scope, s.(offers := Put(s.offers, (id, buyer), offer)),
                    t.(offers := Put(t.offers, (Key(keccak, id), buyer), offer)))
  {
    OfferPut(keccak, scope, s, t, id, buyer, offer);
    OffersChange(keccak, scope, s, t, Put(s.offers, (id, buyer), offer), Put(t.offers, (Key(keccak, id), buyer), offer));
  }

  lemma OfferAt(keccak: Keccak, scope: Scope, s: State, t: State, id: NameId, buyer: Pubkey)
    requires Matches(keccak, scope, s, t) && id in scope.names
    ensures (Key(keccak, id), buyer) in t.offers <==> (id, buyer) in s.offers
    ensures (id, buyer) in s.offers ==> t.offers[(Key(keccak, id), buyer)] == s.offers[(id, buyer)]
  {
    assert Lookup(t.offers, (Key(keccak, id), buyer)) == Lookup(s.offers, (id, buyer));
  }

  /** An offer is opened or closed and `moves` are paid. */
  lemma OfferPaid(keccak: Keccak, scope: Scope, s: State, t: State, id: NameId, buyer: Pubkey, offer: Option<Offer>, moves: seq<Move>, moves': seq<Move>)
    requires Apart(keccak, scope) && Matches(keccak, scope, s, t) && id in scope.names
    requires AllOver(scope, moves) && moves' == RekeyMoves(keccak, moves)
    ensures BothStates(keccak, scope, Paid(s.(offers := Put(s.offers, (id, buyer), offer)), moves),
                       Paid(t.(offers := Put(t.offers, (Key(keccak, id), buyer), offer)), moves'))
  {
    OfferStored(keccak, scope, s, t, id, buyer, offer);
    PaidMatches(keccak, scope, s.(offers := Put(s.offers, (id, buyer), offer)),
                t.(offers := Put(t.offers, (Key(keccak, id), buyer), offer)), moves);
  }

  /** What the two states show of a name and an offer on it. */
  ghost predicate SameView(keccak: Keccak, s: State, t: State, id: NameId, buyer: Pubkey) {
    var key := Key(keccak, id);
    && t.now == s.now && t.config == s.config
    && (key in t.records <==> id in s.records)
    && (id in s.records ==> t.records[key] == RekeyRecord(keccak, s.records[id]))
    && ((key, buyer) in t.offers <==> (id, buyer) in s.offers)
    && ((id, buyer) in s.offers ==> t.offers[(key, buyer)] == s.offers[(id, buyer)])
  }

  lemma SameViews(keccak: Keccak, scope: Scope, s: State, t: State, id: NameId, buyer: Pubkey)
    requires Matches(keccak, scope, s, t) && id in scope.names
    ensures SameView(keccak, s, t, id, buyer)
  {
    RecordAt(keccak, scope, s, t, id);
    OfferAt(keccak, scope, s, t, id, buyer);
  }

  function OfferMoves(id: NameId, buyer: Pubkey, amount: nat): seq<Move> {
    [PayLamports(Wallet(buyer), OfferEscrow(id, buyer), amount)]
  }

  function RefundMoves(id: NameId, buyer: Pubkey): seq<Move> {
    [CloseLamports(OfferEscrow(id, buyer), Wallet(buyer))]
  }

  lemma MakeOfferMatches(keccak: Keccak, scope: Scope, s: State, t: State, buyer: Pubkey, id: NameId, amount: U64, duration: int)
    requires Apart(keccak, scope) && Matches(keccak, scope, s, t) && id in scope.names
    ensures BothStates(keccak, scope, MakeOfferStep(s, buyer, id, amount, duration), MakeOfferStep(t, buyer, Key(keccak, id), amount, duration))
  {
    SameViews(keccak, scope, s, t, id, buyer);
    OfferedMatches(keccak, scope, s, t, buyer, id, amount, duration);
    MakeOfferCloses(keccak, scope, s, t, buyer, id, amount, duration);
  }

  lemma OfferedMatches(keccak: Keccak, scope: Scope, s: State, t: State, buyer: Pubkey, id: NameId, amount: U64, duration: int)
    requires Apart(keccak, scope) && Matches(keccak, scope, s, t) && id in scope.names
    ensures BothStates(keccak, scope, Offered(s, buyer, id, amount, duration), Offered(t, buyer, Key(keccak, id), amount, duration))
  {
    var moves, moves', offer := OfferMoves(id, buyer, amount), OfferMoves(Key(keccak, id), buyer, amount), Some(Offer(amount, s.now + duration));
    OfferedIs(s, buyer, id, amount, duration, offer);
    OfferedIs(t, buyer, Key(keccak, id), amount, duration, offer);
    RekeyMovesAre(keccak, moves, moves');
    OfferPaid(keccak, scope, s, t, id, buyer, offer, moves, moves');
  }

  lemma OfferedIs(s: State, buyer: Pubkey, id: NameId, amount: U64, duration: int, offer: Option<Offer>)
    requires offer == Some(Offer(amount, s.now + duration))
    ensures Offered(s, buyer, id, amount, duration) == Paid(s.(offers := Put(s.offers, (id, buyer), offer)), OfferMoves(id, buyer, amount))
  {
  }

  predicate CanOffer(s: State, buyer: Pubkey, id: NameId, duration: int) {
    id in s.records && (id, buyer) !in s.offers && duration > 0 && s.now + duration <= I64_MAX
  }

  function Offered(s: State, buyer: Pubkey, id: NameId, amount: U64, duration: int): Option<State> {
    Paid(s.(offers := Put(s.offers, (id, buyer), Some(Offer(amount, s.now + duration)))), OfferMoves(id, buyer, amount))
  }

  lemma MakeOfferIs(s: State, buyer: Pubkey, id: NameId, amount: U64, duration: int)
    ensures MakeOfferStep(s, buyer, id, amount, duration)
            == if CanOffer(s, buyer, id, duration) then Offered(s, buyer, id, amount, duration) else None
  {
  }

  lemma MakeOfferCloses(keccak: Keccak, scope: Scope, s: State, t: State, buyer: Pubkey, id: NameId, amount: U64, duration: int)
    requires SameView(keccak, s, t, id, buyer)
    requires BothStates(keccak, scope, Offered(s, buyer, id, amount, duration), Offered(t, buyer, Key(keccak, id), amount, duration))
    ensures BothStates(keccak, scope, MakeOfferStep(s, buyer, id, amount, duration), MakeOfferStep(t, buyer, Key(keccak, id), amount, duration))
  {
    MakeOfferIs(s, buyer, id, amount, duration);
    MakeOfferIs(t, buyer, Key(keccak, id), amount, duration);
    assert CanOffer(t, buyer, Key(keccak, id), duration) == CanOffer(s, buyer, id, duration);
  }

  lemma CancelOfferMatches(keccak: Keccak, scope: Scope, s: State, t: State, signer: Pubkey, id: NameId, buyer: Pubkey, shown: Option<NameId>)
    requires Apart(keccak, scope) && Matches(keccak, scope, s, t)
    requires id in scope.names && (shown.Some? ==> shown.value in scope.names)
    ensures BothStates(keccak, scope, CancelOfferStep(s, signer, id, buyer, shown),
                       CancelOfferStep(t, signer, Key(keccak, id), buyer, RekeyShown(keccak, shown)))
  {
    var key := Key(keccak, id);
    SameViews(keccak, scope, s, t, id, buyer);
    if shown.Some? {
      RecordAt(keccak, scope, s, t, shown.value);
    }
    CancelIs(s, signer, id, buyer, shown);
    CancelIs(t, signer, key, buyer, RekeyShown(keccak, shown));
    assert MayCancel(t, signer, key, buyer, RekeyShown(keccak, shown)) == MayCancel(s, signer, id, buyer, shown);
    RekeyMovesAre(keccak, RefundMoves(id, buyer), RefundMoves(key, buyer));
    OfferPaid(keccak, scope, s, t, id, buyer, None, RefundMoves(id, buyer), RefundMoves(key, buyer));
  }

  function RekeyShown(keccak: Keccak, shown: Option<NameId>): Option<NameId> {
    if shown.Some? then Some(Key(keccak, shown.value)) else None
  }

  predicate MayCancel(s: State, signer: Pubkey, id: NameId, buyer: Pubkey, shown: Option<NameId>) {
    && (id, buyer) in s.offers && (shown.Some? ==> shown.value in s.records)
    && (signer == buyer || (shown == Some(id) && s.records[id].owner == signer) || s.now > s.offers[(id, buyer)].expiresAt)
  }

  lemma CancelIs(s: State, signer: Pubkey, id: NameId, buyer: Pubkey, shown: Option<NameId>)
    ensures CancelOfferStep(s, signer, id, buyer, shown)
            == if MayCancel(s, signer, id, buyer, shown)
               then Paid(s.(offers := Put(s.offers, (id, buyer), None)), RefundMoves(id, buyer)) else None
  {
  }

  lemma AcceptOfferMatches(keccak: Keccak, scope: Scope, s: State, t: State, signer: Pubkey, id: NameId, buyer: Pubkey)
    requires Apart(keccak, scope) && Matches(keccak, scope, s, t) && id in scope.names
    ensures BothStates(keccak, scope, AcceptOfferStep(s, signer, id, buyer), AcceptOfferStep(t, signer, Key(keccak, id), buyer))
  {
    SameViews(keccak, scope, s, t, id, buyer);
    if id in s.records && (id, buyer) in s.offers {
      HandOverPaid(keccak, scope, s, t, signer, id, buyer);
    }
    AcceptOfferCloses(keccak, scope, s, t, signer, id, buyer);
  }

  /** The state in which a name was handed to the buyer and the offer closed. */
  function Accepted(s: State, id: NameId, buyer: Pubkey): State
    requires id in s.records
  {
    s.(records := s.records[id := HandedTo(s.records[id], buyer)], offers := Put(s.offers, (id, buyer), None))
  }

  lemma HandOverPaid(keccak: Keccak, scope: Scope, s: State, t: State, signer: Pubkey, id: NameId, buyer: Pubkey)
    requires Apart(keccak, scope) && Matches(keccak, scope, s, t) && id in scope.names
    requires SameView(keccak, s, t, id, buyer) && id in s.records && (id, buyer) in s.offers
    ensures BothStates(keccak, scope, Paid(Accepted(s, id, buyer), AcceptMoves(s.config, id, signer, buyer, s.offers[(id, buyer)].amount)),
                       Paid(Accepted(t, Key(keccak, id), buyer), AcceptMoves(s.config, Key(keccak, id), signer, buyer, s.offers[(id, buyer)].amount)))
  {
    var key, r, amount := Key(keccak, id), HandedTo(s.records[id], buyer), s.offers[(id, buyer)].amount;
    RecordStored(keccak, scope, s, t, id, r);
    assert RekeyRecord(keccak, r) == HandedTo(t.records[key], buyer);
    var moves, moves' := AcceptMoves(s.config, id, signer, buyer, amount), AcceptMoves(s.config, key, signer, buyer, amount);
    RekeyMovesAre(keccak, moves, moves');
    OfferPaid(keccak, scope, s.(records := s.records[id := r]), t.(records := t.records[key := RekeyRecord(keccak, r)]),
              id, buyer, None, moves, moves');
  }

  lemma AcceptOfferCloses(keccak: Keccak, scope: Scope, s: State, t: State, signer: Pubkey, id: NameId, buyer: Pubkey)
    requires SameView(keccak, s, t, id, buyer)
    requires id in s.records && (id, buyer) in s.offers ==>
               BothStates(keccak, scope, Paid(Accepted(s, id, buyer), AcceptMoves(s.config, id, signer, buyer, s.offers[(id, buyer)].amount)),
                          Paid(Accepted(t, Key(keccak, id), buyer), AcceptMoves(s.config, Key(keccak, id), signer, buyer, s.offers[(id, buyer)].amount)))
    ensures BothStates(keccak, scope, AcceptOfferStep(s, signer, id, buyer), AcceptOfferStep(t, signer, Key(keccak, id), buyer))
  {
  }

  lemma BuybackMatches(keccak: Keccak, scope: Scope, s: State, t: State, keeper: Pubkey, amount: U64)
    requires Apart(keccak, scope) && Matches(keccak, scope, s, t) && PlainConfig(s.config)
    ensures BothStates(keccak, scope, BuybackStep(s, keeper, amount), BuybackStep(t, keeper, amount))
  {
    var vault, out := s.config.burnVault, BuybackUsdc(s.config, amount);
    assert RekeyAccount(keccak, vault) == vault && Over(scope, vault);
    BalanceAt(keccak, scope, s.bank.payment, t.bank.payment, vault);
    if out.Some? {
      var moves := [PayTokens(vault, Wallet(keeper), out.value), BurnSolans(Wallet(keeper), amount)];
      RekeyMovesAre(keccak, moves, moves);
      PaidMatches(keccak, scope, s, t, moves);
    }
  }

  lemma SendMatches(keccak: Keccak, scope: Scope, s: State, t: State, payment: Move)
    requires Apart(keccak, scope) && Matches(keccak, scope, s, t) && MoveOver(scope, payment)
    ensures Ordinary(RekeyMove(keccak, payment)) <==> Ordinary(payment)
    ensures BothStates(keccak, scope, Paid(s, [payment]), Paid(t, [RekeyMove(keccak, payment)]))
  {
    RekeyMovesAre(keccak, [payment], [RekeyMove(keccak, payment)]);
    PaidMatches(keccak, scope, s, t, [payment]);
  }

  lemma ParentInScope(scope: Scope, s: State, id: NameId)
    requires ValidScope(scope) && TreeInv(s) && id in scope.names && id in s.records && s.records[id].parent.Some?
    ensures s.records[id].parent.value in scope.names
  {
    assert WellPlaced(s.now, id, s.records[id]);
  }

  lemma SetReverseMatches(keccak: Keccak, scope: Scope, s: State, t: State, signer: Pubkey, id: NameId, name: string)
    requires Stage(keccak, scope, s, t) && InScope(scope, s, SetReverse(signer, id, name))
    ensures BothStates(keccak, scope, Step(s, SetReverse(signer, id, name)), HashedStep(keccak, t, SetReverse(signer, Key(keccak, id), name)))
  {
    RecordAt(keccak, scope, s, t, id);
    ReverseMatches(keccak, scope, s, t, signer, id, name);
    if id in s.records && s.records[id].parent.None? {
      ClaimDecides(keccak, scope, s, id, name);
    }
  }

  lemma RevokeSubdomainMatches(keccak: Keccak, scope: Scope, s: State, t: State, signer: Pubkey, parent: NameId, child: NameId)
    requires Stage(keccak, scope, s, t) && parent in scope.names && child in scope.names
    ensures BothStates(keccak, scope, RevokeStep(s, signer, parent, child), RevokeStep(t, signer, Key(keccak, parent), Key(keccak, child)))
  {
    if child in s.records && s.records[child].parent.Some? {
      ParentInScope(scope, s, child);
    }
    RevokeMatches(keccak, scope, s, t, signer, parent, child);
  }

  lemma OfferStepMatches(keccak: Keccak, scope: Scope, s: State, t: State, ix: Instruction)
    requires Stage(keccak, scope, s, t) && InScope(scope, s, ix) && (ix.MakeOffer? || ix.AcceptOffer? || ix.CancelOffer?)
    ensures BothStates(keccak, scope, Step(s, ix), HashedStep(keccak, t, RekeyIx(keccak, ix)))
  {
    match ix
    case MakeOffer(buyer, id, amount, duration) => MakeOfferMatches(keccak, scope, s, t, buyer, id, amount, duration);
    case AcceptOffer(signer, id, buyer) => AcceptOfferMatches(keccak, scope, s, t, signer, id, buyer);
    case CancelOffer(signer, id, buyer, shown) => CancelOfferMatches(keccak, scope, s, t, signer, id, buyer, shown);
  }

  lemma MoneyStepMatches(keccak: Keccak, scope: Scope, s: State, t: State, ix: Instruction)
    requires Stage(keccak, scope, s, t) && InScope(scope, s, ix) && (ix.BuybackBurn? || ix.Send? || ix.Configure? || ix.Tick?)
    ensures BothStates(keccak, scope, Step(s, ix), HashedStep(keccak, t, RekeyIx(keccak, ix)))
  {
    match ix
    case BuybackBurn(keeper, amount) => BuybackMatches(keccak, scope, s, t, keeper, amount);
    case Send(payment) => SendMatches(keccak, scope, s, t, payment);
    case Configure(_) => OnlyClockAndConfig(keccak, scope, s, t, s.now, ix.config);
    case Tick(seconds) => OnlyClockAndConfig(keccak, scope, s, t, s.now + seconds, s.config);
  }

  lemma OnlyClockAndConfig(keccak: Keccak, scope: Scope, s: State, t: State, now: int, config: Config)
    requires Matches(keccak, scope, s, t)
    ensures Matches(keccak, scope, s.(now := now, config := config), t.(now := now, config := config))
  {
    forall id | id in scope.names
      ensures CellOf(t.(now := now, config := config), Key(keccak, id)) == RekeyCell(keccak, CellOf(s.(now := now, config := config), id))
    {
      assert CellOf(t, Key(keccak, id)) == RekeyCell(keccak, CellOf(s, id));
    }
  }

  lemma TreeStepMatches(keccak: Keccak, scope: Scope, s: State, t: State, ix: Instruction)
    requires Stage(keccak, scope, s, t) && InScope(scope, s, ix) && (ix.WrapSubdomain? || ix.RevokeSubdomain? || ix.SetReverse?)
    ensures BothStates(keccak, scope, Step(s, ix), HashedStep(keccak, t, RekeyIx(keccak, ix)))
  {
    match ix
    case WrapSubdomain(signer, parent, name, owner) => WrapMatches(keccak, scope, s, t, signer, parent, name, owner);
    case RevokeSubdomain(signer, parent, child) => RevokeSubdomainMatches(keccak, scope, s, t, signer, parent, child);
    case SetReverse(signer, id, name) => SetReverseMatches(keccak, scope, s, t, signer, id, name);
  }

  /** One instruction succeeds on the stored accounts exactly when it does by name, and the states still match. */
  lemma StepMatches(keccak: Keccak, scope: Scope, s: State, t: State, ix: Instruction)
    requires Stage(keccak, scope, s, t) && InScope(scope, s, ix)
    ensures BothStates(keccak, scope, Step(s, ix), HashedStep(keccak, t, RekeyIx(keccak, ix)))
  {
    if ix.OnName? {
      OnNameMatches(keccak, scope, s, t, ix.id, ix.op);
    } else if ix.WrapSubdomain? || ix.RevokeSubdomain? || ix.SetReverse? {
      TreeStepMatches(keccak, scope, s, t, ix);
    } else if ix.MakeOffer? || ix.AcceptOffer? || ix.CancelOffer? {
      OfferStepMatches(keccak, scope, s, t, ix);
    } else {
      MoneyStepMatches(keccak, scope, s, t, ix);
    }
  }

  // ----- whole runs

  lemma StageKept(keccak: Keccak, scope: Scope, s: State, t: State, ix: Instruction)
    requires Stage(keccak, scope, s, t) && InScope(scope, s, ix)
    ensures Stage(keccak, scope, Next(s, ix), HashedNext(keccak, t, RekeyIx(keccak, ix)))
  {
    StepMatches(keccak, scope, s, t, ix);
    StepKeepsTree(s, ix);
    PlainKept(scope, s, ix);
  }

  lemma PlainKept(scope: Scope, s: State, ix: Instruction)
    requires PlainConfig(s.config) && InScope(scope, s, ix)
    ensures PlainConfig(Next(s, ix).config)
  {
  }

  lemma {:induction false} RunMatches(keccak: Keccak, scope: Scope, s: State, t: State, ixs: seq<Instruction>)
    requires Stage(keccak, scope, s, t) && RunInScope(scope, s, ixs)
    ensures Matches(keccak, scope, Run(s, ixs), HashedRun(keccak, t, RekeyIxs(keccak, ixs)))
    decreases |ixs|
  {
    if ixs != [] {
      var hashed := RekeyIxs(keccak, ixs);
      assert hashed[0] == RekeyIx(keccak, ixs[0]) && hashed[1..] == RekeyIxs(keccak, ixs[1..]);
      StageKept(keccak, scope, s, t, ixs[0]);
      RunMatches(keccak, scope, Next(s, ixs[0]), HashedNext(keccak, t, hashed[0]), ixs[1..]);
    }
  }

  /** No escrow or vault exists yet. */
  ghost predicate NoEscrows(bank: Bank) {
    forall a :: !Plain(a) ==> a !in bank.lamports && a !in bank.payment && a !in bank.solans
  }

  lemma InitialMatches(keccak: Keccak, scope: Scope, s: State)
    requires Initial(s) && NoEscrows(s.bank)
    ensures Matches(keccak, scope, s, s)
  {
    forall a ensures Lookup(s.bank.lamports, RekeyAccount(keccak, a)) == Lookup(s.bank.lamports, a)
                     && Lookup(s.bank.payment, RekeyAccount(keccak, a)) == Lookup(s.bank.payment, a)
                     && Lookup(s.bank.solans, RekeyAccount(keccak, a)) == Lookup(s.bank.solans, a)
    {
      assert Plain(a) || (!Plain(a) && !Plain(RekeyAccount(keccak, a)));
    }
  }

  lemma {:induction false} AncestorInScope(scope: Scope, p: NameId, a: NameId)
    requires ValidScope(scope) && a in scope.names && SelfOrAbove(p, a)
    ensures p in scope.names
  {
    if p != a {
      AncestorInScope(scope, p, a.parent);
    }
  }

  /** If two names that a run compares share an address, two names of its scope collide under keccak. */
  lemma ClashIsCollision(keccak: Keccak, scope: Scope) returns (p: NameId, q: NameId)
    requires FixedWidth(keccak) && ValidScope(scope) && !Apart(keccak, scope)
    ensures Collide(keccak, p, q) && p in scope.names + scope.claims && q in scope.names
  {
    if a, b :| a in scope.names && b in scope.names && Key(keccak, a) == Key(keccak, b) && a != b {
      p, q := ClashingAncestors(keccak, a, b);
      AncestorInScope(scope, p, a);
      AncestorInScope(scope, q, b);
    } else {
      var c, id :| c in scope.claims && id in scope.names && Rivals(c, id) && Key(keccak, c) == Key(keccak, id) && c != id;
      p, q := c, id;
      if Preimage(keccak, c) == Preimage(keccak, id) {
        UncheckedNameMatches(c.name, id.name, id.tld);
      }
    }
  }

  /**
   * From a fresh registry on, the run over hash-keyed accounts holds at every name's address what
   * the name-keyed run holds for the name, or two of the names the run itself deals in have
   * different preimages with one digest.
   */
  lemma HashedRunOrCollision(keccak: Keccak, scope: Scope, s: State, ixs: seq<Instruction>) returns (p: NameId, q: NameId)
    requires FixedWidth(keccak) && ValidScope(scope)
    requires Initial(s) && NoEscrows(s.bank) && PlainConfig(s.config) && RunInScope(scope, s, ixs)
    ensures Matches(keccak, scope, Run(s, ixs), HashedRun(keccak, s, RekeyIxs(keccak, ixs)))
            || (Collide(keccak, p, q) && p in scope.names + scope.claims && q in scope.names)
  {
    p, q := TopLevel("", ""), TopLevel("", "");
    if Apart(keccak, scope) {
      InitialTree(s);
      InitialMatches(keccak, scope, s);
      RunMatches(keccak, scope, s, s, ixs);
    } else {
      p, q := ClashIsCollision(keccak, scope);
    }
  }
}
