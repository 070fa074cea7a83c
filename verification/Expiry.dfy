/** Terms only grow, and a keeper cannot renew faster than time passes. */
module Expiry {
  import opened Prelude
  import opened Arith
  import opened Naming
  import opened Economics
  import opened Registry

  predicate Extends(op: NameOp) {
    op.Renew? || op.KeeperRenew? || op.Claim?
  }

  /** While the record stays open its expiry never moves back; a renewal or claim adds at least a year. */
  lemma PerformExtends(e: Env, id: NameId, c: Cell, op: NameOp)
    requires ValidConfig(e.config) && c.record.Some?
    requires Perform(e, id, c, op).Some? && Perform(e, id, c, op).value.cell.record.Some?
    ensures Perform(e, id, c, op).value.cell.record.value.expiresAt
            >= c.record.value.expiresAt + (if Extends(op) then SECONDS_PER_YEAR else 0)
    ensures op.KeeperRenew? ==> e.now >= c.record.value.expiresAt - RENEWAL_WINDOW
  {
    if Extends(op) {
      TimesMonotone(1, op.years, SECONDS_PER_YEAR);
    }
  }

  predicate KeeperOn(ix: Instruction, id: NameId) {
    ix.OnName? && ix.id == id && ix.op.KeeperRenew?
  }

  predicate ExtendsOn(s: State, ix: Instruction, id: NameId) {
    ix.OnName? && ix.id == id && Extends(ix.op) && Step(s, ix).Some?
  }

  lemma StepExtends(s: State, ix: Instruction, id: NameId)
    requires ValidConfig(s.config) && id in s.records && id in Next(s, ix).records
    ensures Next(s, ix).records[id].expiresAt
            >= s.records[id].expiresAt + (if ExtendsOn(s, ix, id) then SECONDS_PER_YEAR else 0)
    ensures KeeperOn(ix, id) && Step(s, ix).Some? ==> s.now >= s.records[id].expiresAt - RENEWAL_WINDOW
  {
    if Touched(ix) != Some(id) {
      OtherCellsKept(s, ix, id);
      assert CellOf(Next(s, ix), id).record == CellOf(s, id).record;
    } else if ix.OnName? && Step(s, ix).Some? {
      PutCellOther(s, id, Perform(EnvOf(s), id, CellOf(s, id), ix.op).value.cell, id);
      assert CellOf(Next(s, ix), id).record.Some?;
      PerformExtends(EnvOf(s), id, CellOf(s, id), ix.op);
    }
  }

  /** The record on `id` is open at every point of the run. */
  predicate NeverClosed(s: State, ixs: seq<Instruction>, id: NameId)
    decreases |ixs|
  {
    id in s.records && (ixs == [] || NeverClosed(Next(s, ixs[0]), ixs[1..], id))
  }

  /** How many renewals by a keeper succeed during the run. */
  function KeeperRenewals(s: State, ixs: seq<Instruction>, id: NameId): nat
    decreases |ixs|
  {
    if ixs == [] then 0
    else (if KeeperOn(ixs[0], id) && Step(s, ixs[0]).Some? then 1 else 0) + KeeperRenewals(Next(s, ixs[0]), ixs[1..], id)
  }

  /** The renewals and claims of all kinds that succeed. */
  function Extensions(s: State, ixs: seq<Instruction>, id: NameId): nat
    decreases |ixs|
  {
    if ixs == [] then 0
    else (if ExtendsOn(s, ixs[0], id) then 1 else 0) + Extensions(Next(s, ixs[0]), ixs[1..], id)
  }

  lemma {:induction false} ClockOnly(s: State, ixs: seq<Instruction>)
    requires ValidConfig(s.config)
    ensures Run(s, ixs).now >= s.now
    decreases |ixs|
  {
    if ixs != [] {
      ConfigKept(s, ixs[0]);
      ClockForward(s, ixs[0]);
      ClockOnly(Next(s, ixs[0]), ixs[1..]);
    }
  }

  /**
   * Under any mix of renewals and takeovers every extension adds at least a year, and n keeper
   * renewals need the clock to reach the first expiry plus n - 1 years, less the 30-day window.
   */
  lemma {:induction false} KeeperRateBound(s: State, ixs: seq<Instruction>, id: NameId)
    requires ValidConfig(s.config) && NeverClosed(s, ixs, id)
    ensures id in Run(s, ixs).records
    ensures Run(s, ixs).records[id].expiresAt >= s.records[id].expiresAt + SECONDS_PER_YEAR * Extensions(s, ixs, id)
    ensures KeeperRenewals(s, ixs, id) <= Extensions(s, ixs, id)
    ensures KeeperRenewals(s, ixs, id) >= 1 ==>
              Run(s, ixs).now >= s.records[id].expiresAt + SECONDS_PER_YEAR * (KeeperRenewals(s, ixs, id) - 1) - RENEWAL_WINDOW
    decreases |ixs|
  {
    if ixs != [] {
      StepExtends(s, ixs[0], id);
      ConfigKept(s, ixs[0]);
      ClockForward(s, ixs[0]);
      ClockOnly(Next(s, ixs[0]), ixs[1..]);
      KeeperRateBound(Next(s, ixs[0]), ixs[1..], id);
    }
  }
}
