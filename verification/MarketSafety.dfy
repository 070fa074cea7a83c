/** Listings and auctions share one freeze flag: when it is sound, and what it freezes. */
module MarketSafety {
  import opened Prelude
  import opened Naming
  import opened Economics
  import opened Registry

  predicate OnSale(c: Cell) {
    c.record.Some? && c.record.value.listed
  }

  // ----- in every run

  /** A listed name is not tokenized, not locked, and some market account is open on it. */
  predicate Backed(c: Cell) {
    OnSale(c) ==>
      && c.record.value.nftMint.None?
      && !c.record.value.transferLocked
      && (c.listing.Some? || c.auction.Some?)
  }

  lemma PerformBacked(e: Env, id: NameId, c: Cell, op: NameOp)
    requires Backed(c) && Perform(e, id, c, op).Some?
    ensures Backed(Perform(e, id, c, op).value.cell)
  {
  }

  ghost predicate AllBacked(s: State) {
    forall id :: Backed(CellOf(s, id))
  }

  lemma CellBackedAfter(s: State, ix: Instruction, id: NameId)
    requires Backed(CellOf(s, id)) && Touched(ix) == Some(id)
    ensures Backed(CellOf(Next(s, ix), id))
  {
    if Step(s, ix).Some? {
      if ix.OnName? {
        PerformBacked(EnvOf(s), id, CellOf(s, id), ix.op);
        PutCellOther(s, id, Perform(EnvOf(s), id, CellOf(s, id), ix.op).value.cell, id);
      }
    }
  }

  lemma {:induction false} ListedIsBacked(s: State, ixs: seq<Instruction>)
    requires AllBacked(s)
    ensures AllBacked(Run(s, ixs))
    decreases |ixs|
  {
    if ixs != [] {
      forall id ensures Backed(CellOf(Next(s, ixs[0]), id)) {
        if Touched(ixs[0]) == Some(id) {
          CellBackedAfter(s, ixs[0], id);
        } else {
          OtherCellsKept(s, ixs[0], id);
        }
      }
      ListedIsBacked(Next(s, ixs[0]), ixs[1..]);
    }
  }

  // ----- the interlock

  /** On sale means exactly one market account, opened by the current owner; otherwise there is none. */
  predicate Interlocked(c: Cell) {
    if OnSale(c) then
      && c.record.value.nftMint.None?
      && !c.record.value.transferLocked
      && (c.listing.Some? != c.auction.Some?)
      && (c.listing.Some? ==> c.listing.value.seller == c.record.value.owner)
      && (c.auction.Some? ==> c.auction.value.seller == c.record.value.owner)
    else
      c.listing.None? && c.auction.None?
  }

  /** A takeover of a name with an open market account leaves that account behind. */
  predicate OrderlyOp(c: Cell, op: NameOp) {
    op.Claim? ==> c.listing.None? && c.auction.None?
  }

  lemma PerformInterlock(e: Env, id: NameId, c: Cell, op: NameOp)
    requires Interlocked(c) && Perform(e, id, c, op).Some?
    ensures Interlocked(Perform(e, id, c, op).value.cell) <==> OrderlyOp(c, op)
  {
  }

  ghost predicate AllInterlocked(s: State) {
    forall id :: Interlocked(CellOf(s, id))
  }

  predicate Orderly(s: State, ix: Instruction) {
    match ix
    case OnName(id, op) => OrderlyOp(CellOf(s, id), op)
    case RevokeSubdomain(_, _, child) => !OnSale(CellOf(s, child))
    case _ => true
  }

  lemma CellInterlockAfter(s: State, ix: Instruction, id: NameId)
    requires Interlocked(CellOf(s, id)) && Touched(ix) == Some(id) && Step(s, ix).Some?
    ensures Interlocked(CellOf(Next(s, ix), id)) <==> Orderly(s, ix)
  {
    if ix.OnName? {
      PerformInterlock(EnvOf(s), id, CellOf(s, id), ix.op);
      PutCellOther(s, id, Perform(EnvOf(s), id, CellOf(s, id), ix.op).value.cell, id);
    }
  }

  /** A successful instruction keeps the interlock of all names exactly when it is orderly. */
  lemma InterlockExact(s: State, ix: Instruction)
    requires AllInterlocked(s) && Step(s, ix).Some?
    ensures AllInterlocked(Next(s, ix)) <==> Orderly(s, ix)
  {
    var touched := Touched(ix);
    forall id | touched != Some(id) ensures Interlocked(CellOf(Next(s, ix), id)) {
      assert Interlocked(CellOf(s, id));
      OtherCellsKept(s, ix, id);
    }
    if touched.Some? {
      assert Interlocked(CellOf(s, touched.value));
      CellInterlockAfter(s, ix, touched.value);
    }
  }

  predicate OrderlyRun(s: State, ixs: seq<Instruction>)
    decreases |ixs|
  {
    ixs == [] || ((Step(s, ixs[0]).Some? ==> Orderly(s, ixs[0])) && OrderlyRun(Next(s, ixs[0]), ixs[1..]))
  }

  lemma {:induction false} InterlockKept(s: State, ixs: seq<Instruction>)
    requires AllInterlocked(s) && OrderlyRun(s, ixs)
    ensures AllInterlocked(Run(s, ixs))
    decreases |ixs|
  {
    if ixs != [] {
      if Step(s, ixs[0]).Some? {
        InterlockExact(s, ixs[0]);
      }
      InterlockKept(Next(s, ixs[0]), ixs[1..]);
    }
  }

  lemma InitialMarkets(s: State)
    requires Initial(s)
    ensures AllInterlocked(s) && AllBacked(s)
  {
  }

  // ----- the freeze

  /** Everything about a record but its expiry. */
  function Frozen(r: NameRecord): NameRecord {
    r.(expiresAt := 0)
  }

  /** The asset for sale is the same; only its term may have grown. */
  predicate SameAsset(before: Cell, after: Cell) {
    && before.record.Some? && after.record.Some?
    && Frozen(after.record.value) == Frozen(before.record.value)
    && after.record.value.expiresAt >= before.record.value.expiresAt
  }

  predicate Closes(op: NameOp) {
    op.CloseListing? || op.Buy? || op.Settle? || op.CallOff?
  }

  lemma PerformFreeze(e: Env, id: NameId, c: Cell, op: NameOp)
    requires ValidConfig(e.config)
    requires Interlocked(c) && OnSale(c) && OrderlyOp(c, op) && !Closes(op)
    requires Perform(e, id, c, op).Some?
    ensures SameAsset(c, Perform(e, id, c, op).value.cell)
  {
  }

  predicate ClosesSale(ix: Instruction, id: NameId) {
    ix.OnName? && ix.id == id && Closes(ix.op)
  }

  lemma StepFreeze(s: State, ix: Instruction, id: NameId)
    requires ValidConfig(s.config) && AllInterlocked(s) && OnSale(CellOf(s, id))
    requires Step(s, ix).Some? && Orderly(s, ix) && !ClosesSale(ix, id)
    ensures SameAsset(CellOf(s, id), CellOf(Next(s, ix), id))
  {
    assert Interlocked(CellOf(s, id));
    if Touched(ix) != Some(id) {
      OtherCellsKept(s, ix, id);
    } else if ix.OnName? {
      PerformFreeze(EnvOf(s), id, CellOf(s, id), ix.op);
      PutCellOther(s, id, Perform(EnvOf(s), id, CellOf(s, id), ix.op).value.cell, id);
    }
  }

  /** No subdomain appears under `id` in this step. */
  lemma StepNoNewChild(s: State, ix: Instruction, id: NameId, n: string)
    requires OnSale(CellOf(s, id))
    ensures Subdomain(id, n) in Next(s, ix).records ==> Subdomain(id, n) in s.records
  {
    if Touched(ix) != Some(Subdomain(id, n)) {
      OtherCellsKept(s, ix, Subdomain(id, n));
      assert CellOf(Next(s, ix), Subdomain(id, n)).record == CellOf(s, Subdomain(id, n)).record;
    }
  }

  /** The sale of `id` stays open: no instruction of the run succeeds in closing it. */
  predicate StaysOpen(s: State, ixs: seq<Instruction>, id: NameId)
    decreases |ixs|
  {
    ixs == [] || (!(ClosesSale(ixs[0], id) && Step(s, ixs[0]).Some?) && StaysOpen(Next(s, ixs[0]), ixs[1..], id))
  }

  /**
   * From the opening of a sale until it is bought, cancelled, settled or called off, no orderly
   * run changes the asset or adds a subdomain under it; its expiry can only grow.
   */
  lemma {:induction false} SaleFreezesName(s: State, ixs: seq<Instruction>, id: NameId)
    requires ValidConfig(s.config) && AllInterlocked(s) && OnSale(CellOf(s, id))
    requires OrderlyRun(s, ixs) && StaysOpen(s, ixs, id)
    ensures SameAsset(CellOf(s, id), CellOf(Run(s, ixs), id))
    ensures forall n :: Subdomain(id, n) in Run(s, ixs).records ==> Subdomain(id, n) in s.records
    decreases |ixs|
  {
    if ixs != [] {
      var t := Next(s, ixs[0]);
      if Step(s, ixs[0]).Some? {
        InterlockExact(s, ixs[0]);
        StepFreeze(s, ixs[0], id);
      }
      ConfigKept(s, ixs[0]);
      SaleFreezesName(t, ixs[1..], id);
      forall n | Subdomain(id, n) in Run(t, ixs[1..]).records ensures Subdomain(id, n) in s.records {
        StepNoNewChild(s, ixs[0], id, n);
      }
    }
  }
}
