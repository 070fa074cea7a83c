/** The subdomain tree: what every run keeps, what resolution means, and how subtrees die. */
module TreeSafety {
  import opened Prelude
  import opened Naming
  import opened Economics
  import opened Paths
  import opened Registry

  // ----- one record

  /** A stored record agrees with the name its key stands for. */
  predicate WellPlaced(now: int, id: NameId, r: NameRecord) {
    && ValidName(id)
    && r.tld == Tld(id)
    && r.parent == (if id.Subdomain? then Some(id.parent) else None)
    && r.depth == Nesting(id) <= MAX_SUBDOMAIN_DEPTH
    && r.parentRegisteredAt <= r.registeredAt <= now
    && r.registeredAt <= r.expiresAt
  }

  predicate CellPlaced(now: int, id: NameId, c: Cell) {
    c.record.Some? ==> WellPlaced(now, id, c.record.value)
  }

  /** A record survives with its birth data, or was (re)born just now. */
  predicate SurvivesOrReborn(now: int, before: Cell, after: Cell) {
    after.record.Some? ==>
      || after.record.value.registeredAt == now
      || (before.record.Some?
          && after.record.value.registeredAt == before.record.value.registeredAt
          && after.record.value.parentRegisteredAt == before.record.value.parentRegisteredAt)
  }

  ghost predicate KeepsPlace(e: Env, id: NameId, c: Cell, op: NameOp) {
    Perform(e, id, c, op).Some? ==>
      && CellPlaced(e.now, id, Perform(e, id, c, op).value.cell)
      && SurvivesOrReborn(e.now, c, Perform(e, id, c, op).value.cell)
  }

  lemma TermPlaced(e: Env, id: NameId, c: Cell, op: NameOp)
    requires 0 <= e.now && CellPlaced(e.now, id, c) && TermOp(op)
    ensures KeepsPlace(e, id, c, op)
  {
  }

  lemma RecordPlaced(e: Env, id: NameId, c: Cell, op: NameOp)
    requires CellPlaced(e.now, id, c) && RecordOp(op)
    ensures KeepsPlace(e, id, c, op)
  {
  }

  lemma ListingPlaced(e: Env, id: NameId, c: Cell, op: NameOp)
    requires CellPlaced(e.now, id, c) && ListingOp(op)
    ensures KeepsPlace(e, id, c, op)
  {
  }

  lemma AuctionPlaced(e: Env, id: NameId, c: Cell, op: NameOp)
    requires CellPlaced(e.now, id, c) && AuctionOp(op)
    ensures KeepsPlace(e, id, c, op)
  {
  }

  lemma PerformPlaced(e: Env, id: NameId, c: Cell, op: NameOp)
    requires 0 <= e.now && CellPlaced(e.now, id, c)
    ensures KeepsPlace(e, id, c, op)
  {
    if TermOp(op) {
      TermPlaced(e, id, c, op);
    } else if RecordOp(op) {
      RecordPlaced(e, id, c, op);
    } else if ListingOp(op) {
      ListingPlaced(e, id, c, op);
    } else {
      AuctionPlaced(e, id, c, op);
    }
  }

  // ----- all records

  ghost predicate Placed(s: State) {
    forall id :: id in s.records ==> WellPlaced(s.now, id, s.records[id])
  }

  /** No child remembers a birth of its parent later than the parent's current one. */
  ghost predicate Linked(s: State) {
    forall p, n :: p in s.records && Subdomain(p, n) in s.records ==>
      s.records[Subdomain(p, n)].parentRegisteredAt <= s.records[p].registeredAt
  }

  ghost predicate TreeInv(s: State) {
    ValidConfig(s.config) && 0 <= s.now && Placed(s) && Linked(s)
  }

  /** What any instruction does to one cell, as far as births are concerned. */
  ghost predicate Ages(s: State, t: State, id: NameId) {
    && CellPlaced(t.now, id, CellOf(t, id))
    && (SurvivesOrReborn(s.now, CellOf(s, id), CellOf(t, id)))
    && (CellOf(t, id).record.Some? && CellOf(s, id).record.None? && id.Subdomain? ==>
          id.parent in s.records && t.records[id].parentRegisteredAt == s.records[id.parent].registeredAt)
    && (id.Subdomain? && id in t.records && id in s.records ==>
          t.records[id].parentRegisteredAt == s.records[id].parentRegisteredAt)
  }

  predicate SameParentBirth(before: Cell, after: Cell) {
    after.record.Some? ==> before.record.Some? && after.record.value.parentRegisteredAt == before.record.value.parentRegisteredAt
  }

  lemma CellAges(s: State, t: State, id: NameId, c: Cell)
    requires CellPlaced(s.now, id, c) && SurvivesOrReborn(s.now, CellOf(s, id), c)
    requires id.Subdomain? ==> SameParentBirth(CellOf(s, id), c)
    requires t.now == s.now && CellOf(t, id) == c
    ensures Ages(s, t, id)
  {
  }

  lemma OnNameAges(s: State, id: NameId, op: NameOp, c: Cell, t: State)
    requires TreeInv(s) && OnNameStep(s, id, op) == Some(t) && Perform(EnvOf(s), id, CellOf(s, id), op).value.cell == c
    ensures Ages(s, t, id)
  {
    PerformPlaced(EnvOf(s), id, CellOf(s, id), op);
    if id.Subdomain? {
      SubdomainsOnlyWrapped(EnvOf(s), id, CellOf(s, id), op);
    }
    PutCellOther(s, id, c, id);
    CellAges(s, t, id, c);
  }

  /** Registration makes only top-level names, and only a takeover rewrites birth data. */
  lemma SubdomainsOnlyWrapped(e: Env, id: NameId, c: Cell, op: NameOp)
    requires id.Subdomain? && CellPlaced(e.now, id, c) && Perform(e, id, c, op).Some?
    ensures SameParentBirth(c, Perform(e, id, c, op).value.cell)
  {
  }

  lemma WrapAges(s: State, ix: Instruction, id: NameId, t: State)
    requires TreeInv(s) && Touched(ix) == Some(id) && ix.WrapSubdomain? && Step(s, ix) == Some(t)
    ensures Ages(s, t, id)
  {
    assert WellPlaced(s.now, ix.parent, s.records[ix.parent]);
  }

  lemma RevokeAges(s: State, ix: Instruction, id: NameId, t: State)
    requires Touched(ix) == Some(id) && ix.RevokeSubdomain? && Step(s, ix) == Some(t)
    ensures Ages(s, t, id)
  {
  }

  lemma ReverseAges(s: State, ix: Instruction, id: NameId, t: State)
    requires TreeInv(s) && Touched(ix) == Some(id) && ix.SetReverse? && Step(s, ix) == Some(t)
    ensures Ages(s, t, id)
  {
    assert WellPlaced(s.now, id, s.records[id]);
  }

  lemma AcceptAges(s: State, ix: Instruction, id: NameId, t: State)
    requires TreeInv(s) && Touched(ix) == Some(id) && ix.AcceptOffer? && Step(s, ix) == Some(t)
    ensures Ages(s, t, id)
  {
    assert WellPlaced(s.now, id, s.records[id]);
  }

  lemma StepAges(s: State, ix: Instruction, id: NameId)
    requires TreeInv(s) && Touched(ix) == Some(id)
    ensures Ages(s, Next(s, ix), id)
  {
    if Step(s, ix).Some? {
      if ix.OnName? {
        OnNameAges(s, id, ix.op, Perform(EnvOf(s), id, CellOf(s, id), ix.op).value.cell, Next(s, ix));
      } else if ix.WrapSubdomain? {
        WrapAges(s, ix, id, Next(s, ix));
      } else if ix.RevokeSubdomain? {
        RevokeAges(s, ix, id, Next(s, ix));
      } else if ix.SetReverse? {
        ReverseAges(s, ix, id, Next(s, ix));
      } else {
        AcceptAges(s, ix, id, Next(s, ix));
      }
    }
  }

  ghost predicate SameRecordsExcept(s: State, t: State, touched: Option<NameId>) {
    forall id :: touched != Some(id) ==> Lookup(t.records, id) == Lookup(s.records, id)
  }

  lemma TreeKept(s: State, t: State, touched: Option<NameId>)
    requires TreeInv(s) && ValidConfig(t.config) && s.now <= t.now
    requires touched.Some? ==> t.now == s.now && Ages(s, t, touched.value)
    requires SameRecordsExcept(s, t, touched)
    ensures TreeInv(t)
  {
    forall id | id in t.records ensures WellPlaced(t.now, id, t.records[id]) {
      if touched != Some(id) {
        assert Lookup(t.records, id) == Lookup(s.records, id);
      }
    }
    forall p, n | p in t.records && Subdomain(p, n) in t.records
      ensures t.records[Subdomain(p, n)].parentRegisteredAt <= t.records[p].registeredAt
    {
      LinkKept(s, t, touched, p, n);
    }
  }

  lemma LinkKept(s: State, t: State, touched: Option<NameId>, p: NameId, n: string)
    requires TreeInv(s) && s.now <= t.now && SameRecordsExcept(s, t, touched)
    requires touched.Some? ==> t.now == s.now && Ages(s, t, touched.value)
    requires p in t.records && Subdomain(p, n) in t.records
    ensures t.records[Subdomain(p, n)].parentRegisteredAt <= t.records[p].registeredAt
  {
    var id := Subdomain(p, n);
    if touched == Some(id) {
      assert Lookup(t.records, p) == Lookup(s.records, p);
      assert Ages(s, t, id);
    } else {
      assert Lookup(t.records, id) == Lookup(s.records, id);
      assert WellPlaced(s.now, id, s.records[id]);
      if touched == Some(p) {
        assert Ages(s, t, p);
      } else {
        assert Lookup(t.records, p) == Lookup(s.records, p);
      }
    }
  }

  lemma StepRecords(s: State, ix: Instruction)
    ensures SameRecordsExcept(s, Next(s, ix), Touched(ix))
  {
    forall id | Touched(ix) != Some(id) ensures Lookup(Next(s, ix).records, id) == Lookup(s.records, id) {
      OtherCellsKept(s, ix, id);
      assert CellOf(Next(s, ix), id).record == CellOf(s, id).record;
    }
  }

  lemma StepKeepsTree(s: State, ix: Instruction)
    requires TreeInv(s)
    ensures TreeInv(Next(s, ix))
  {
    ConfigKept(s, ix);
    ClockForward(s, ix);
    StepRecords(s, ix);
    var touched := Touched(ix);
    if touched.Some? {
      StepAges(s, ix, touched.value);
    }
    TreeKept(s, Next(s, ix), touched);
  }

  /** In every reachable state: parents match keys, depth is the nesting and at most 4, births are ordered. */
  lemma {:induction false} RunKeepsTree(s: State, ixs: seq<Instruction>)
    requires TreeInv(s)
    ensures TreeInv(Run(s, ixs))
    decreases |ixs|
  {
    if ixs != [] {
      StepKeepsTree(s, ixs[0]);
      RunKeepsTree(Next(s, ixs[0]), ixs[1..]);
    }
  }

  // ----- resolution

  /** A name resolves when it and all its ancestors exist and every captured birth is current. */
  predicate Resolves(s: State, id: NameId) {
    && id in s.records
    && (id.Subdomain? ==>
          && id.parent in s.records
          && s.records[id.parent].registeredAt == s.records[id].parentRegisteredAt
          && Resolves(s, id.parent))
  }

  /** The clients' walk up the stored parent pointers; it takes at most `depth` hops. */
  method Resolve(s: State, id: NameId) returns (leaf: Option<NameRecord>, hops: nat)
    requires TreeInv(s)
    ensures leaf == if Resolves(s, id) then Some(s.records[id]) else None
    ensures hops <= Nesting(id) && (id in s.records ==> hops <= s.records[id].depth <= MAX_SUBDOMAIN_DEPTH)
  {
    hops := 0;
    if id !in s.records { return None, 0; }
    var cursor := s.records[id];
    ghost var at := id;
    while cursor.parent.Some?
      invariant at in s.records && cursor == s.records[at]
      invariant Resolves(s, id) <==> Resolves(s, at)
      invariant hops + Nesting(at) == Nesting(id)
      decreases cursor.depth
    {
      assert WellPlaced(s.now, at, cursor);
      var parent := cursor.parent.value;
      if parent !in s.records { return None, hops; }
      var parentRec := s.records[parent];
      if parentRec.registeredAt != cursor.parentRegisteredAt { return None, hops; }
      assert WellPlaced(s.now, parent, parentRec);
      cursor := parentRec;
      at := parent;
      hops := hops + 1;
    }
    assert WellPlaced(s.now, id, s.records[id]);
    assert WellPlaced(s.now, at, cursor);
    return Some(s.records[id]), hops;
  }

  /** Below a resolving name births only get later, and every ancestor of a resolving name resolves. */
  lemma {:induction false} AncestorsOlder(s: State, a: NameId, d: NameId)
    requires TreeInv(s) && Above(a, d) && Resolves(s, d)
    ensures a in s.records && s.records[a].registeredAt <= s.records[d].registeredAt
    ensures Resolves(s, a)
  {
    assert WellPlaced(s.now, d, s.records[d]);
    if a != d.parent {
      AncestorsOlder(s, a, d.parent);
    }
  }

  // ----- subtree invalidation

  /** Since clock T the name has been gone, or is held by a registration made at T or later. */
  predicate RebornSince(s: State, a: NameId, T: int) {
    s.now >= T && (a in s.records ==> s.records[a].registeredAt >= T)
  }

  lemma RebornStep(s: State, ix: Instruction, a: NameId, T: int)
    requires TreeInv(s) && RebornSince(s, a, T)
    ensures RebornSince(Next(s, ix), a, T)
  {
    ConfigKept(s, ix);
    ClockForward(s, ix);
    if Touched(ix) == Some(a) {
      StepAges(s, ix, a);
    } else {
      OtherCellsKept(s, ix, a);
      assert CellOf(Next(s, ix), a).record == CellOf(s, a).record;
    }
  }

  /**
   * Once a name was claimed, burned or revoked at clock T, no run ever lets a descendant created
   * before T resolve again.
   */
  lemma {:induction false} SubtreeStaysDead(s: State, ixs: seq<Instruction>, a: NameId, d: NameId, T: int)
    requires TreeInv(s) && RebornSince(s, a, T) && Above(a, d)
    ensures Resolves(Run(s, ixs), d) ==> Run(s, ixs).records[d].registeredAt >= T
    decreases |ixs|
  {
    if ixs == [] {
      if Resolves(s, d) {
        AncestorsOlder(s, a, d);
      }
    } else {
      StepKeepsTree(s, ixs[0]);
      RebornStep(s, ixs[0], a, T);
      SubtreeStaysDead(Next(s, ixs[0]), ixs[1..], a, d, T);
    }
  }

  /** A claim strictly raises the birth of the name, because it waits out expiry and grace. */
  lemma ClaimRaisesBirth(s: State, id: NameId, op: NameOp)
    requires TreeInv(s) && op.Claim? && Step(s, OnName(id, op)).Some?
    ensures var t := Next(s, OnName(id, op));
            && id in s.records && id in t.records
            && t.records[id].registeredAt == s.now > s.records[id].registeredAt
            && t.now == s.now
            && RebornSince(t, id, s.now)
  {
    assert WellPlaced(s.now, id, s.records[id]);
  }

  /** A claim kills the whole existing subtree at once, whatever its members' ages. */
  lemma {:induction false} ClaimKillsSubtree(s: State, id: NameId, op: NameOp, d: NameId)
    requires TreeInv(s) && op.Claim? && Step(s, OnName(id, op)).Some? && Above(id, d)
    ensures !Resolves(Next(s, OnName(id, op)), d)
  {
    var ix := OnName(id, op);
    if d.parent == id {
      ClaimRaisesBirth(s, id, op);
      StepRecords(s, ix);
      assert Lookup(Next(s, ix).records, d) == Lookup(s.records, d);
    } else {
      ClaimKillsSubtree(s, id, op, d.parent);
    }
  }

  /** Burning or revoking leaves the same mark at the current clock. */
  lemma RemovalMarks(s: State, ix: Instruction, id: NameId)
    requires TreeInv(s) && Touched(ix) == Some(id) && id !in Next(s, ix).records
    ensures RebornSince(Next(s, ix), id, s.now)
  {
    ConfigKept(s, ix);
    ClockForward(s, ix);
  }

  /** Two states hold the same records from `d` up to, but not including, its ancestor `id`. */
  predicate BranchSame(s: State, t: State, id: NameId, d: NameId) {
    d == id || (Lookup(t.records, d) == Lookup(s.records, d) && (d.Subdomain? ==> BranchSame(s, t, id, d.parent)))
  }

  /** An untouched branch hangs off its ancestor exactly while the ancestor resolves with the same birth. */
  lemma {:induction false} RebirthExact(s: State, t: State, id: NameId, d: NameId)
    requires TreeInv(s) && Above(id, d) && Resolves(s, d) && BranchSame(s, t, id, d)
    ensures id in s.records
    ensures Resolves(t, d) <==> Resolves(t, id) && t.records[id].registeredAt == s.records[id].registeredAt
  {
    AncestorsAreShallower(id, d);
    if d.parent != id {
      RebirthExact(s, t, id, d.parent);
    }
  }

  predicate Spares(ixs: seq<Instruction>, id: NameId) {
    forall i :: 0 <= i < |ixs| ==> Touched(ixs[i]) != Some(id)
  }

  /** No instruction of the run is about `d` or a name between it and its ancestor `id`. */
  predicate SparesBranch(ixs: seq<Instruction>, id: NameId, d: NameId) {
    d == id || (Spares(ixs, d) && (d.Subdomain? ==> SparesBranch(ixs, id, d.parent)))
  }

  lemma {:induction false} NameKept(s: State, ixs: seq<Instruction>, id: NameId)
    requires Spares(ixs, id)
    ensures CellOf(Run(s, ixs), id) == CellOf(s, id)
    decreases |ixs|
  {
    if ixs != [] {
      OtherCellsKept(s, ixs[0], id);
      NameKept(Next(s, ixs[0]), ixs[1..], id);
    }
  }

  lemma {:induction false} BranchKept(s: State, ixs: seq<Instruction>, t: State, ix: Instruction, id: NameId, d: NameId)
    requires SparesBranch(ixs, id, d) && Touched(ix) == Some(id) && t == Run(s, ixs)
    ensures BranchSame(s, Next(t, ix), id, d)
  {
    if d != id {
      NameKept(s, ixs, d);
      OtherCellsKept(t, ix, d);
      assert CellOf(Next(t, ix), d).record == CellOf(s, d).record;
      if d.Subdomain? {
        BranchKept(s, ixs, t, ix, id, d.parent);
      }
    }
  }

  lemma RegistrationBirth(s: State, id: NameId, op: NameOp)
    requires op.Register? && Step(s, OnName(id, op)).Some?
    ensures id.TopLevel? && Lookup(s.records, id).None?
    ensures Resolves(Next(s, OnName(id, op)), id) && Next(s, OnName(id, op)).records[id].registeredAt == s.now
  {
  }

  /**
   * A name is removed and registered again, with anything at all in between that leaves one branch
   * of its subtree alone: a descendant on that branch that resolved before resolves again exactly
   * when the new registration falls in the second of the old one.
   */
  lemma ReRegistrationExact(s: State, ixs: seq<Instruction>, id: NameId, d: NameId, op: NameOp)
    requires TreeInv(s) && Above(id, d) && Resolves(s, d) && SparesBranch(ixs, id, d)
    requires op.Register? && Step(Run(s, ixs), OnName(id, op)).Some?
    ensures id in s.records
    ensures Resolves(Next(Run(s, ixs), OnName(id, op)), d) <==> s.records[id].registeredAt == Run(s, ixs).now
  {
    var later, ix := Run(s, ixs), OnName(id, op);
    RegistrationBirth(later, id, op);
    BranchKept(s, ixs, later, ix, id, d);
    RebirthExact(s, Next(later, ix), id, d);
  }

  // ----- renewals never reach a subdomain

  /** A renewal or takeover that succeeds is for a top-level name, whose key has other preimage bytes than any subdomain's. */
  lemma RenewalsAreTopLevel(keccak: Keccak, s: State, id: NameId, op: NameOp, sub: NameId)
    requires op.Renew? || op.KeeperRenew? || op.Claim?
    requires Step(s, OnName(id, op)).Some? && sub.Subdomain?
    ensures id.TopLevel? && Preimage(keccak, id) != Preimage(keccak, sub)
  {
    RenewedName(s, id, op);
    TopLevelNeverSubdomain(keccak, id.name, id.tld, sub);
  }

  lemma RenewedName(s: State, id: NameId, op: NameOp)
    requires op.Renew? || op.KeeperRenew? || op.Claim?
    requires Step(s, OnName(id, op)).Some?
    ensures id.TopLevel? && ValidLabel(id.name)
  {
  }

  // ----- reverse records

  ghost predicate ReverseInv(s: State) {
    forall w :: w in s.reverses ==> s.reverses[w].hash == TopLevel(s.reverses[w].name, s.reverses[w].tld)
  }

  lemma StepKeepsReverse(s: State, ix: Instruction)
    requires ReverseInv(s)
    ensures ReverseInv(Next(s, ix))
  {
  }

  lemma {:induction false} RunKeepsReverse(s: State, ixs: seq<Instruction>)
    requires ReverseInv(s)
    ensures ReverseInv(Run(s, ixs))
    decreases |ixs|
  {
    if ixs != [] {
      StepKeepsReverse(s, ixs[0]);
      RunKeepsReverse(Next(s, ixs[0]), ixs[1..]);
    }
  }

  /** A wallet's primary name, dropped when the record is gone or owned by someone else. */
  function ReverseLookup(s: State, owner: Pubkey): Option<string> {
    if owner !in s.reverses then None else
    var rev := s.reverses[owner];
    if rev.hash !in s.records || s.records[rev.hash].owner != owner then None
    else Some(rev.name + "." + rev.tld)
  }

  /**
   * Whatever transfers, sales, claims or burns happened since: a name returned for a wallet
   * resolves, and to a record that wallet owns.
   */
  lemma ReverseSound(s: State, ixs: seq<Instruction>, owner: Pubkey)
    requires TreeInv(s) && ReverseInv(s)
    ensures var t := Run(s, ixs);
            var text := ReverseLookup(t, owner);
            text.Some? ==> Resolves(t, RustId(text.value)) && t.records[RustId(text.value)].owner == owner
  {
    RunKeepsTree(s, ixs);
    RunKeepsReverse(s, ixs);
    LookupSound(Run(s, ixs), owner);
  }

  lemma LookupSound(t: State, owner: Pubkey)
    requires TreeInv(t) && ReverseInv(t)
    ensures var text := ReverseLookup(t, owner);
            text.Some? ==> Resolves(t, RustId(text.value)) && t.records[RustId(text.value)].owner == owner
  {
    if ReverseLookup(t, owner).Some? {
      var rev := t.reverses[owner];
      assert WellPlaced(t.now, rev.hash, t.records[rev.hash]);
      TopLevelText(rev.name, rev.tld);
    }
  }

  /** Exactly the wallets with a reverse record to a name they still own have a primary name, and it is the recorded one. */
  lemma LookupExact(s: State, owner: Pubkey)
    requires ReverseInv(s)
    ensures ReverseLookup(s, owner).Some?
            <==> owner in s.reverses && s.reverses[owner].hash in s.records && s.records[s.reverses[owner].hash].owner == owner
    ensures ReverseLookup(s, owner).Some? ==>
              var rev := s.reverses[owner];
              ReverseLookup(s, owner).value == rev.name + "." + rev.tld && rev.hash == TopLevel(rev.name, rev.tld)
  {
  }

  /** A verified reverse record takes effect at once. */
  lemma SetThenLookup(s: State, signer: Pubkey, id: NameId, name: string)
    requires Step(s, SetReverse(signer, id, name)).Some?
    ensures id in s.records && ReverseLookup(Next(s, SetReverse(signer, id, name)), signer) == Some(name + "." + s.records[id].tld)
  {
  }

  /** Both invariants hold from the start. */
  lemma InitialTree(s: State)
    requires Initial(s)
    ensures TreeInv(s) && ReverseInv(s)
  {
  }
}
