/** The record vectors of all names, over every run. */
module RecordSafety {
  import opened Prelude
  import opened Naming
  import opened RecordStore
  import opened Registry

  predicate CellWellFormed(c: Cell) {
    c.record.Some? ==> WellFormed(c.record.value.records)
  }

  ghost predicate AllWellFormed(s: State) {
    forall id :: CellWellFormed(CellOf(s, id))
  }

  lemma WriteKeepsForm(rs: seq<Record>, key: string, value: Option<string>)
    requires WellFormed(rs) && Written(rs, key, value).Some?
    ensures WellFormed(Written(rs, key, value).value)
    ensures Contents(Written(rs, key, value).value)
            == if value.Some? then Contents(rs)[key := value.value] else Contents(rs) - {key}
  {
    match value
    case Some(v) => UpsertIsUpdate(rs, key, v);
    case None => DeleteIsRemove(rs, key);
  }

  lemma PerformKeepsForm(e: Env, id: NameId, c: Cell, op: NameOp)
    requires CellWellFormed(c) && Perform(e, id, c, op).Some?
    ensures CellWellFormed(Perform(e, id, c, op).value.cell)
  {
    if op.Write? {
      WriteKeepsForm(c.record.value.records, op.key, op.value);
    }
  }

  lemma CellFormAfter(s: State, ix: Instruction, id: NameId)
    requires CellWellFormed(CellOf(s, id)) && Touched(ix) == Some(id) && Step(s, ix).Some?
    ensures CellWellFormed(CellOf(Next(s, ix), id))
  {
    if ix.OnName? {
      PerformKeepsForm(EnvOf(s), id, CellOf(s, id), ix.op);
      PutCellOther(s, id, Perform(EnvOf(s), id, CellOf(s, id), ix.op).value.cell, id);
    }
  }

  lemma StepKeepsForm(s: State, ix: Instruction)
    requires AllWellFormed(s)
    ensures AllWellFormed(Next(s, ix))
  {
    forall id ensures CellWellFormed(CellOf(Next(s, ix), id)) {
      assert CellWellFormed(CellOf(s, id));
      if Touched(ix) != Some(id) {
        OtherCellsKept(s, ix, id);
      } else if Step(s, ix).Some? {
        CellFormAfter(s, ix, id);
      }
    }
  }

  /** In every reachable state every stored vector has distinct keys and at most 16 entries. */
  lemma {:induction false} RunKeepsForm(s: State, ixs: seq<Instruction>)
    requires AllWellFormed(s)
    ensures AllWellFormed(Run(s, ixs))
    decreases |ixs|
  {
    if ixs != [] {
      StepKeepsForm(s, ixs[0]);
      RunKeepsForm(Next(s, ixs[0]), ixs[1..]);
    }
  }

  lemma InitialForm(s: State)
    requires Initial(s)
    ensures AllWellFormed(s)
  {
  }

  /** Hence a successful write changes the name's records, seen as a map, in exactly one key. */
  lemma WriteIsUpdate(s: State, ixs: seq<Instruction>, id: NameId, signer: Pubkey, nft: Option<NftAccount>, key: string, value: Option<string>)
    requires AllWellFormed(s)
    requires Step(Run(s, ixs), OnName(id, Write(signer, nft, key, value))).Some?
    ensures var t := Run(s, ixs);
            var after := Next(t, OnName(id, Write(signer, nft, key, value)));
            && id in t.records && id in after.records
            && Contents(after.records[id].records)
               == if value.Some? then Contents(t.records[id].records)[key := value.value]
                  else Contents(t.records[id].records) - {key}
  {
    RunKeepsForm(s, ixs);
    WriteStep(Run(s, ixs), id, signer, nft, key, value);
  }

  lemma WriteStep(t: State, id: NameId, signer: Pubkey, nft: Option<NftAccount>, key: string, value: Option<string>)
    requires AllWellFormed(t) && Step(t, OnName(id, Write(signer, nft, key, value))).Some?
    ensures var after := Next(t, OnName(id, Write(signer, nft, key, value)));
            && id in t.records && id in after.records
            && Contents(after.records[id].records)
               == if value.Some? then Contents(t.records[id].records)[key := value.value]
                  else Contents(t.records[id].records) - {key}
  {
    assert CellWellFormed(CellOf(t, id));
    WriteKeepsForm(t.records[id].records, key, value);
  }
}
