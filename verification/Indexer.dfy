/**
 * The indexer: a fold of decoded instructions into a map of entries, and exactly when the map
 * still tells the truth about the chain.
 */
module Indexer {
  import opened Prelude
  import opened Naming
  import opened Paths
  import opened Economics
  import opened Registry
  import opened MarketSafety

  /** Asking price and seller of a listed name. */
  datatype Ask = Ask(price: nat, seller: Pubkey)

  /** One indexed name. A record's address is derived from its name's hash, so both are the same key here. */
  datatype NameEntry = NameEntry(
    nameRecord: NameId, fullName: Option<string>, name: string, tld: Option<string>, owner: Option<Pubkey>,
    nameHash: Option<NameId>, parent: Option<NameId>, registeredAt: Option<int>, expiresAt: Option<int>,
    active: bool, listed: Option<Ask>)

  type Index = map<NameId, NameEntry>

  datatype Event =
    | Registered(record: NameId, owner: Pubkey, name: string, tld: string, years: nat)
    | Renewed(record: NameId, name: string, tld: string, years: nat)
    | Wrapped(record: NameId, parent: NameId, owner: Pubkey, name: string)
    | Transferred(record: NameId, newOwner: Pubkey)
    | Burned(record: NameId)
    | Listed(record: NameId, seller: Pubkey, price: nat)
    | Unlisted(record: NameId)
    | Bought(record: NameId, newOwner: Pubkey)

  // ----- decoding

  /** What the indexer reads off an instruction; keeper renewals, takeovers, auctions, offers, repricing and revocation are not decoded. */
  function Decode(ix: Instruction): Option<Event> {
    match ix
    case OnName(id, op) => DecodeOp(id, op)
    case WrapSubdomain(_, parent, name, owner) => Some(Wrapped(Subdomain(parent, name), parent, owner, name))
    case _ => None
  }

  function DecodeOp(id: NameId, op: NameOp): Option<Event> {
    match op
    case Register(owner, name, tld, years, _) => Some(Registered(id, owner, name, tld, years))
    case Renew(name, tld, years, _) => Some(Renewed(id, name, tld, years))
    case Give(_, newOwner) => Some(Transferred(id, newOwner))
    case Release(_) => Some(Burned(id))
    case OpenListing(signer, price, _) => Some(Listed(id, signer, price))
    case CloseListing(_) => Some(Unlisted(id))
    case Buy(buyer, _) => Some(Bought(id, buyer))
    case _ => None
  }

  // ----- folding

  /** The entry an event leaves, given the old one, the parent's full name and TLD, and the block time if known. */
  function EntryAfter(was: Option<NameEntry>, parent: Option<NameEntry>, ev: Event, ts: Option<int>): Option<NameEntry> {
    match ev
    case Registered(id, owner, name, tld, years) =>
      Some(NameEntry(id, Some(name + "." + tld), name, Some(tld), Some(owner), Some(id), None,
                     ts, if ts.Some? then Some(ts.value + years * SECONDS_PER_YEAR) else None, true, None))
    case Renewed(id, name, tld, years) =>
      var entry := if was.Some? then was.value
                   else NameEntry(id, Some(name + "." + tld), name, Some(tld), None, None, None, None, None, true, None);
      Some(entry.(expiresAt := Some(RenewalBase(was, ts) + years * SECONDS_PER_YEAR)))
    case Wrapped(id, p, owner, name) =>
      var fullName := if parent.Some? && parent.value.fullName.Some? && parent.value.fullName.value != ""
                      then Some(name + "." + parent.value.fullName.value) else None;
      var tld := if parent.Some? then parent.value.tld else None;
      Some(NameEntry(id, fullName, name, tld, Some(owner), Some(id), Some(p), ts, None, true, None))
    case Transferred(_, newOwner) => if was.Some? then Some(was.value.(owner := Some(newOwner))) else None
    case Burned(_) => if was.Some? then Some(was.value.(active := false)) else None
    case Listed(_, seller, price) => if was.Some? then Some(was.value.(listed := Some(Ask(price, seller)))) else None
    case Unlisted(_) => if was.Some? then Some(was.value.(listed := None)) else None
    case Bought(_, newOwner) => if was.Some? then Some(was.value.(owner := Some(newOwner), listed := None)) else None
  }

  /** The indexed expiry, else the block time, else zero. */
  function RenewalBase(was: Option<NameEntry>, ts: Option<int>): int {
    if was.Some? && was.value.expiresAt.Some? then was.value.expiresAt.value
    else if ts.Some? then ts.value else 0
  }

  function ParentEntry(index: Index, ev: Event): Option<NameEntry> {
    if ev.Wrapped? then Lookup(index, ev.parent) else None
  }

  function Apply(index: Index, ev: Event, ts: Option<int>): Index {
    Put(index, ev.record, EntryAfter(Lookup(index, ev.record), ParentEntry(index, ev), ev, ts))
  }

  /** An event with the block time of its transaction, if known. */
  datatype Stamped = Stamped(event: Event, ts: Option<int>)

  function ApplyAll(index: Index, journal: seq<Stamped>): Index
    decreases |journal|
  {
    if journal == [] then index else ApplyAll(Apply(index, journal[0].event, journal[0].ts), journal[1..])
  }

  /** The in-memory store: the source's map, mutated in place, which remembers the order keys were added in. */
  class MemoryStore {
    var byRecord: Index
    var order: seq<NameId>

    ghost predicate Valid()
      reads this
    {
      && Keyed(byRecord)
      && (forall id :: id in order <==> id in byRecord)
      && (forall i, j :: 0 <= i < j < |order| ==> order[i] != order[j])
    }

    constructor ()
      ensures Valid() && byRecord == map[]
    {
      byRecord, order := map[], [];
    }

    /** A new key goes last; an old one keeps its place. */
    method UpsertEntry(entry: NameEntry)
      requires Valid()
      modifies this
      ensures Valid()
      ensures byRecord == old(byRecord)[entry.nameRecord := entry]
      ensures order == if entry.nameRecord in old(byRecord) then old(order) else old(order) + [entry.nameRecord]
    {
      if entry.nameRecord !in byRecord {
        order := order + [entry.nameRecord];
      }
      byRecord := byRecord[entry.nameRecord := entry];
    }

    method GetByRecord(id: NameId) returns (r: Option<NameEntry>)
      ensures r == Lookup(byRecord, id)
    {
      return Lookup(byRecord, id);
    }

    /** Scan the entries in order: the first one with the full name, if there is one. */
    method GetByName(fullName: string) returns (r: Option<NameEntry>)
      requires Valid()
      ensures r.Some? ==> exists i :: 0 <= i < |order| && FirstNamed(byRecord, order, fullName, i) && r.value == byRecord[order[i]]
      ensures r.None? ==> forall id :: id in byRecord ==> byRecord[id].fullName != Some(fullName)
    {
      for i := 0 to |order|
        invariant forall j :: 0 <= j < i ==> byRecord[order[j]].fullName != Some(fullName)
      {
        if byRecord[order[i]].fullName == Some(fullName) {
          assert FirstNamed(byRecord, order, fullName, i);
          return Some(byRecord[order[i]]);
        }
      }
      return None;
    }

    /** The entry an event writes, if any. */
    method EntryFor(ev: Event, ts: Option<int>) returns (r: Option<NameEntry>)
      ensures r == EntryAfter(Lookup(byRecord, ev.record), ParentEntry(byRecord, ev), ev, ts)
    {
      var e := GetByRecord(ev.record);
      match ev {
        case Registered(id, owner, name, tld, years) =>
          var expiresAt := if ts.Some? then Some(ts.value + years * SECONDS_PER_YEAR) else None;
          return Some(NameEntry(id, Some(name + "." + tld), name, Some(tld), Some(owner), Some(id), None, ts, expiresAt, true, None));
        case Renewed(id, name, tld, years) =>
          var base := if e.Some? && e.value.expiresAt.Some? then e.value.expiresAt.value else if ts.Some? then ts.value else 0;
          var entry := NameEntry(id, Some(name + "." + tld), name, Some(tld), None, None, None, None, None, true, None);
          if e.Some? { entry := e.value; }
          return Some(entry.(expiresAt := Some(base + years * SECONDS_PER_YEAR)));
        case Wrapped(id, p, owner, name) =>
          var parent := GetByRecord(p);
          var fullName: Option<string> := None;
          var tld: Option<string> := None;
          if parent.Some? {
            tld := parent.value.tld;
            if parent.value.fullName.Some? && parent.value.fullName.value != "" {
              fullName := Some(name + "." + parent.value.fullName.value);
            }
          }
          return Some(NameEntry(id, fullName, name, tld, Some(owner), Some(id), Some(p), ts, None, true, None));
        case Transferred(_, newOwner) =>
          return if e.Some? then Some(e.value.(owner := Some(newOwner))) else None;
        case Burned(_) =>
          return if e.Some? then Some(e.value.(active := false)) else None;
        case Listed(_, seller, price) =>
          return if e.Some? then Some(e.value.(listed := Some(Ask(price, seller)))) else None;
        case Unlisted(_) =>
          return if e.Some? then Some(e.value.(listed := None)) else None;
        case Bought(_, newOwner) =>
          return if e.Some? then Some(e.value.(owner := Some(newOwner), listed := None)) else None;
      }
    }

    /** Fold one decoded event into the store. */
    method ApplyEvent(ev: Event, ts: Option<int>)
      requires Valid()
      modifies this
      ensures Valid()
      ensures byRecord == Apply(old(byRecord), ev, ts)
    {
      EntryKeyed(byRecord, ev, ts);
      PutLookup(byRecord, ev.record);
      var entry := EntryFor(ev, ts);
      if entry.Some? {
        UpsertEntry(entry.value);
      }
    }
  }

  /** An event writes an entry for its own record, and never deletes one. */
  lemma EntryKeyed(index: Index, ev: Event, ts: Option<int>)
    requires Keyed(index)
    ensures var entry := EntryAfter(Lookup(index, ev.record), ParentEntry(index, ev), ev, ts);
            if entry.Some? then entry.value.nameRecord == ev.record else ev.record !in index
  {
  }

  /** Every entry is stored under its own key. */
  predicate Keyed(index: Index) {
    forall id :: id in index ==> index[id].nameRecord == id
  }

  predicate FirstNamed(index: Index, order: seq<NameId>, fullName: string, i: nat) {
    && i < |order| && order[i] in index && index[order[i]].fullName == Some(fullName)
    && forall j :: 0 <= j < i ==> order[j] in index && index[order[j]].fullName != Some(fullName)
  }

  /** An instruction delivered by the webhook, with the block time of its transaction if known. */
  datatype Delivery = Delivery(ix: Instruction, ts: Option<int>)

  function DecodeOne(d: Delivery): seq<Stamped> {
    match Decode(d.ix)
    case Some(ev) => [Stamped(ev, d.ts)]
    case None => []
  }

  /** The events of a feed, in order; instructions the indexer does not know are skipped. */
  function Decoded(feed: seq<Delivery>): seq<Stamped> {
    if feed == [] then [] else DecodeOne(feed[0]) + Decoded(feed[1..])
  }

  lemma ApplyNext(index: Index, d: Delivery, later: seq<Stamped>)
    ensures ApplyAll(index, DecodeOne(d) + later)
            == match Decode(d.ix)
               case Some(ev) => ApplyAll(Apply(index, ev, d.ts), later)
               case None => ApplyAll(index, later)
  {
    if Decode(d.ix).Some? {
      assert (DecodeOne(d) + later)[1..] == later;
    } else {
      assert DecodeOne(d) + later == later;
    }
  }

  /** Decode and fold a batch of instructions, and count the ones applied. */
  method Ingest(store: MemoryStore, feed: seq<Delivery>) returns (applied: nat)
    requires store.Valid()
    modifies store
    ensures store.Valid()
    ensures store.byRecord == ApplyAll(old(store.byRecord), Decoded(feed))
    ensures applied == |Decoded(feed)|
  {
    applied := 0;
    for i := 0 to |feed|
      invariant store.Valid()
      invariant ApplyAll(store.byRecord, Decoded(feed[i..])) == ApplyAll(old(store.byRecord), Decoded(feed))
      invariant applied + |Decoded(feed[i..])| == |Decoded(feed)|
    {
      assert feed[i..][0] == feed[i] && feed[i..][1..] == feed[i + 1..];
      ApplyNext(store.byRecord, feed[i], Decoded(feed[i + 1..]));
      match Decode(feed[i].ix) {
        case Some(ev) =>
          store.ApplyEvent(ev, feed[i].ts);
          applied := applied + 1;
        case None =>
      }
    }
    assert feed[|feed|..] == [];
  }

  // ----- agreement with the chain

  function AskOf(listing: Option<Listing>): Option<Ask> {
    if listing.Some? then Some(Ask(listing.value.price, listing.value.seller)) else None
  }

  /** The entry's full name is a dotted path that hashes to its key. */
  predicate WellNamed(id: NameId, e: NameEntry) {
    && e.nameRecord == id && e.nameHash == Some(id)
    && !id.Digest? && e.name == id.name && e.tld == Some(Tld(id))
    && e.fullName.Some? && !Dotless(e.fullName.value)
    && RustId(e.fullName.value) == id
  }

  /** The entry shows the record; the fold never learns the expiry of a subdomain. */
  predicate Shows(e: NameEntry, r: NameRecord, listing: Option<Listing>) {
    && e.active
    && e.owner == Some(r.owner)
    && e.parent == r.parent
    && e.registeredAt == Some(r.registeredAt)
    && e.expiresAt == (if r.parent.None? then Some(r.expiresAt) else None)
    && e.listed == AskOf(listing)
  }

  predicate Agrees(id: NameId, c: Cell, e: Option<NameEntry>) {
    && (e.Some? ==> WellNamed(id, e.value))
    && match c.record
       case None => e.Some? ==> !e.value.active
       case Some(r) => e.Some? && (r.parent.None? <==> id.TopLevel?) && Shows(e.value, r, c.listing)
  }

  ghost predicate AllAgree(s: State, index: Index) {
    forall id :: Agrees(id, CellOf(s, id), Lookup(index, id))
  }

  /** What an operation does that the decoded event does not say. */
  predicate OpTold(now: int, c: Cell, op: NameOp) {
    match op
    case Renew(_, _, _, _) => c.record.Some? && now <= c.record.value.expiresAt
    case KeeperRenew(_, _, _) => false
    case Claim(_, _, _, _, _) => false
    case Reprice(_, price, _) => c.record.Some? && c.listing.Some? && price == c.listing.value.price
    case Settle => c.record.Some? && c.auction.Some? && c.auction.value.highestBidder in {None, Some(c.record.value.owner)}
    case Redeem(nft) => c.record.Some? && nft.owner == c.record.value.owner
    case _ => true
  }

  function EntryAfterOp(id: NameId, e: Option<NameEntry>, op: NameOp, now: int): Option<NameEntry> {
    match DecodeOp(id, op)
    case Some(ev) => EntryAfter(e, None, ev, Some(now))
    case None => e
  }

  /** Keeper renewals and takeovers change the term behind the index's back. */
  lemma TermUnseen(e: Env, id: NameId, c: Cell, op: NameOp, entry: Option<NameEntry>)
    requires ValidConfig(e.config) && Agrees(id, c, entry)
    requires op.KeeperRenew? || op.Claim?
    requires Perform(e, id, c, op).Some?
    ensures !Agrees(id, Perform(e, id, c, op).value.cell, entry)
  {
    var r := Perform(e, id, c, op).value.cell.record.value;
    assert r.expiresAt > c.record.value.expiresAt && r.parent == c.record.value.parent;
  }

  /** Other operations the indexer does not decode leave the entry as it was. */
  lemma RecordUnseen(e: Env, id: NameId, c: Cell, op: NameOp, entry: Option<NameEntry>)
    requires Agrees(id, c, entry)
    requires Perform(e, id, c, op).Some? && DecodeOp(id, op).None? && RecordOp(op)
    ensures Agrees(id, Perform(e, id, c, op).value.cell, entry) <==> OpTold(e.now, c, op)
  {
  }

  lemma RepriceUnseen(e: Env, id: NameId, c: Cell, op: NameOp, entry: Option<NameEntry>)
    requires Interlocked(c) && Agrees(id, c, entry)
    requires Perform(e, id, c, op).Some? && op.Reprice?
    ensures Agrees(id, Perform(e, id, c, op).value.cell, entry) <==> OpTold(e.now, c, op)
  {
  }

  lemma AuctionUnseen(e: Env, id: NameId, c: Cell, op: NameOp, entry: Option<NameEntry>)
    requires Interlocked(c) && Agrees(id, c, entry)
    requires Perform(e, id, c, op).Some? && AuctionOp(op)
    ensures Agrees(id, Perform(e, id, c, op).value.cell, entry) <==> OpTold(e.now, c, op)
  {
  }

  lemma RegisterShape(e: Env, id: NameId, c: Cell, op: NameOp)
    requires op.Register? && Perform(e, id, c, op).Some?
    ensures ValidLabel(op.name) && AllowedTld(op.tld) && id == TopLevel(op.name, op.tld)
    ensures Perform(e, id, c, op).value.cell
            == c.(record := Some(NewTopLevel(op.owner, op.tld, e.now, e.now + op.years * SECONDS_PER_YEAR)))
  {
  }

  lemma RegisterAgrees(now: int, c: Cell, owner: Pubkey, name: string, tld: string, years: nat, was: Option<NameEntry>)
    requires c.listing.None? && ValidLabel(name) && AllowedTld(tld)
    ensures var id := TopLevel(name, tld);
            Agrees(id, c.(record := Some(NewTopLevel(owner, tld, now, now + years * SECONDS_PER_YEAR))),
                   EntryAfter(was, None, Registered(id, owner, name, tld, years), Some(now)))
  {
    TopLevelText(name, tld);
  }

  lemma RenewShape(e: Env, id: NameId, c: Cell, op: NameOp)
    requires op.Renew? && Perform(e, id, c, op).Some?
    ensures c.record.Some? && id.TopLevel?
    ensures Perform(e, id, c, op).value.cell
            == c.(record := Some(c.record.value.(expiresAt := Max(c.record.value.expiresAt, e.now) + op.years * SECONDS_PER_YEAR)))
  {
  }

  lemma RenewAgrees(now: int, id: NameId, c: Cell, name: string, tld: string, years: nat, was: Option<NameEntry>)
    requires c.record.Some? && id.TopLevel? && Agrees(id, c, was)
    ensures Agrees(id, c.(record := Some(c.record.value.(expiresAt := Max(c.record.value.expiresAt, now) + years * SECONDS_PER_YEAR))),
                   EntryAfter(was, None, Renewed(id, name, tld, years), Some(now)))
            <==> now <= c.record.value.expiresAt
  {
    assert RenewalBase(was, Some(now)) == c.record.value.expiresAt;
  }

  lemma RecordSeen(e: Env, id: NameId, c: Cell, op: NameOp, entry: Option<NameEntry>)
    requires Interlocked(c) && Agrees(id, c, entry)
    requires Perform(e, id, c, op).Some? && (op.Give? || op.Release?)
    ensures Agrees(id, Perform(e, id, c, op).value.cell, EntryAfterOp(id, entry, op, e.now))
  {
  }

  lemma ListingSeen(e: Env, id: NameId, c: Cell, op: NameOp, entry: Option<NameEntry>)
    requires Interlocked(c) && Agrees(id, c, entry)
    requires Perform(e, id, c, op).Some? && (op.OpenListing? || op.CloseListing?)
    ensures Agrees(id, Perform(e, id, c, op).value.cell, EntryAfterOp(id, entry, op, e.now))
  {
  }

  lemma SaleSeen(e: Env, id: NameId, c: Cell, op: NameOp, entry: Option<NameEntry>)
    requires Interlocked(c) && Agrees(id, c, entry)
    requires Perform(e, id, c, op).Some? && op.Buy?
    ensures Agrees(id, Perform(e, id, c, op).value.cell, EntryAfterOp(id, entry, op, e.now))
  {
  }

  lemma RegisterTold(e: Env, id: NameId, c: Cell, op: NameOp, entry: Option<NameEntry>)
    requires op.Register? && Perform(e, id, c, op).Some? && c.listing.None?
    ensures Agrees(id, Perform(e, id, c, op).value.cell, EntryAfterOp(id, entry, op, e.now))
  {
    RegisterShape(e, id, c, op);
    RegisterAgrees(e.now, c, op.owner, op.name, op.tld, op.years, entry);
  }

  lemma RenewTold(e: Env, id: NameId, c: Cell, op: NameOp, entry: Option<NameEntry>)
    requires op.Renew? && Perform(e, id, c, op).Some? && Agrees(id, c, entry)
    ensures Agrees(id, Perform(e, id, c, op).value.cell, EntryAfterOp(id, entry, op, e.now)) <==> OpTold(e.now, c, op)
  {
    RenewShape(e, id, c, op);
    RenewAgrees(e.now, id, c, op.name, op.tld, op.years, entry);
  }

  lemma PerformAgrees(e: Env, id: NameId, c: Cell, op: NameOp, entry: Option<NameEntry>)
    requires ValidConfig(e.config) && Interlocked(c) && Agrees(id, c, entry)
    requires Perform(e, id, c, op).Some?
    ensures Agrees(id, Perform(e, id, c, op).value.cell, EntryAfterOp(id, entry, op, e.now)) <==> OpTold(e.now, c, op)
  {
    if op.Register? {
      assert c.listing.None?;
      RegisterTold(e, id, c, op, entry);
    } else if op.Renew? {
      RenewTold(e, id, c, op, entry);
    } else if op.Give? || op.Release? {
      RecordSeen(e, id, c, op, entry);
    } else if op.OpenListing? || op.CloseListing? {
      ListingSeen(e, id, c, op, entry);
    } else if op.Buy? {
      SaleSeen(e, id, c, op, entry);
    } else if TermOp(op) {
      TermUnseen(e, id, c, op, entry);
    } else if RecordOp(op) {
      RecordUnseen(e, id, c, op, entry);
    } else if op.Reprice? {
      RepriceUnseen(e, id, c, op, entry);
    } else {
      AuctionUnseen(e, id, c, op, entry);
    }
  }

  /** The instruction's event says everything that happened to the indexed fields. */
  predicate Told(s: State, ix: Instruction) {
    match ix
    case OnName(id, op) => OpTold(s.now, CellOf(s, id), op)
    case RevokeSubdomain(_, _, _) => false
    case AcceptOffer(_, _, _) => false
    case _ => true
  }

  /** The index after one instruction of the chain: only successful transactions are folded. */
  function Observe(index: Index, s: State, ix: Instruction): Index {
    match (Step(s, ix), Decode(ix))
    case (Some(_), Some(ev)) => Apply(index, ev, Some(s.now))
    case _ => index
  }

  /** What a run of the chain delivers: its successful instructions, each with its block time. */
  function Feed(s: State, ixs: seq<Instruction>): seq<Delivery>
    decreases |ixs|
  {
    if ixs == [] then []
    else (if Step(s, ixs[0]).Some? then [Delivery(ixs[0], Some(s.now))] else []) + Feed(Next(s, ixs[0]), ixs[1..])
  }

  lemma OthersObserved(index: Index, s: State, ix: Instruction, id: NameId)
    requires Touched(ix) != Some(id)
    ensures Lookup(Observe(index, s, ix), id) == Lookup(index, id)
  {
  }

  lemma OpObserved(index: Index, s: State, id: NameId, op: NameOp)
    requires OnNameStep(s, id, op).Some?
    ensures Lookup(Observe(index, s, OnName(id, op)), id) == EntryAfterOp(id, Lookup(index, id), op, s.now)
  {
  }

  lemma OpCell(s: State, id: NameId, op: NameOp, effect: Option<Effect>)
    requires effect == Perform(EnvOf(s), id, CellOf(s, id), op) && OnNameStep(s, id, op).Some?
    ensures effect.Some? && CellOf(Next(s, OnName(id, op)), id) == effect.value.cell
  {
    OnNameIs(s, id, op, effect);
    PutCellOther(s, id, effect.value.cell, id);
  }

  lemma ChildAgrees(id: NameId, p: NameRecord, above: NameEntry, owner: Pubkey, name: string, now: int, was: Option<NameEntry>)
    requires ValidLabel(name) && WellNamed(id, above)
    ensures Agrees(Subdomain(id, name), Cell(Some(NewSubdomain(owner, now, p, id)), None, None),
                   EntryAfter(was, Some(above), Wrapped(Subdomain(id, name), id, owner, name), Some(now)))
  {
    LabelDotless(name);
    SubdomainText(name, above.fullName.value);
  }

  lemma WrapObserved(index: Index, s: State, ix: Instruction, child: NameId)
    requires ix.WrapSubdomain? && Step(s, ix).Some? && child == Subdomain(ix.parent, ix.name)
    ensures ix.parent in s.records && ValidLabel(ix.name) && child !in s.records
    ensures CellOf(Next(s, ix), child) == CellOf(s, child).(record := Some(NewSubdomain(ix.owner, s.now, s.records[ix.parent], ix.parent)))
    ensures Lookup(Observe(index, s, ix), child)
            == EntryAfter(Lookup(index, child), Lookup(index, ix.parent), Wrapped(child, ix.parent, ix.owner, ix.name), Some(s.now))
  {
  }

  lemma WrapAgrees(index: Index, s: State, ix: Instruction, child: NameId)
    requires AllAgree(s, index) && AllInterlocked(s)
    requires ix.WrapSubdomain? && Step(s, ix).Some? && child == Subdomain(ix.parent, ix.name)
    ensures Agrees(child, CellOf(Next(s, ix), child), Lookup(Observe(index, s, ix), child))
  {
    WrapObserved(index, s, ix, child);
    assert Agrees(ix.parent, CellOf(s, ix.parent), Lookup(index, ix.parent));
    assert Interlocked(CellOf(s, child));
    ChildAgrees(ix.parent, s.records[ix.parent], index[ix.parent], ix.owner, ix.name, s.now, Lookup(index, child));
  }

  lemma TouchedAgrees(index: Index, s: State, ix: Instruction, id: NameId)
    requires ValidConfig(s.config) && AllInterlocked(s) && AllAgree(s, index)
    requires Step(s, ix).Some? && Touched(ix) == Some(id)
    ensures Agrees(id, CellOf(Next(s, ix), id), Lookup(Observe(index, s, ix), id)) <==> Told(s, ix)
  {
    assert Interlocked(CellOf(s, id));
    assert Agrees(id, CellOf(s, id), Lookup(index, id));
    if ix.OnName? {
      OpObserved(index, s, id, ix.op);
      OpCell(s, id, ix.op, Perform(EnvOf(s), id, CellOf(s, id), ix.op));
      PerformAgrees(EnvOf(s), id, CellOf(s, id), ix.op, Lookup(index, id));
    } else if ix.WrapSubdomain? {
      WrapAgrees(index, s, ix, id);
    }
  }

  /** After one successful instruction the index still agrees with the chain exactly when the event told everything. */
  lemma AgreementExact(index: Index, s: State, ix: Instruction)
    requires ValidConfig(s.config) && AllInterlocked(s) && AllAgree(s, index)
    requires Step(s, ix).Some?
    ensures AllAgree(Next(s, ix), Observe(index, s, ix)) <==> Told(s, ix)
  {
    var touched := Touched(ix);
    forall id | touched != Some(id) ensures Agrees(id, CellOf(Next(s, ix), id), Lookup(Observe(index, s, ix), id)) {
      assert Agrees(id, CellOf(s, id), Lookup(index, id));
      OtherCellsKept(s, ix, id);
      OthersObserved(index, s, ix, id);
    }
    if touched.Some? {
      TouchedAgrees(index, s, ix, touched.value);
    }
  }

  predicate ToldRun(s: State, ixs: seq<Instruction>)
    decreases |ixs|
  {
    ixs == [] || ((Step(s, ixs[0]).Some? ==> Told(s, ixs[0])) && ToldRun(Next(s, ixs[0]), ixs[1..]))
  }

  lemma ToldIsOrderly(s: State, ix: Instruction)
    requires Told(s, ix)
    ensures Orderly(s, ix)
  {
  }

  /** Over any run whose events told everything, the fold of the run agrees with its final state. */
  lemma {:induction false} IndexAgreement(index: Index, s: State, ixs: seq<Instruction>)
    requires ValidConfig(s.config) && AllInterlocked(s) && AllAgree(s, index)
    requires ToldRun(s, ixs)
    ensures AllAgree(Run(s, ixs), ApplyAll(index, Decoded(Feed(s, ixs))))
    decreases |ixs|
  {
    if ixs != [] {
      var t := Next(s, ixs[0]);
      if Step(s, ixs[0]).Some? {
        ToldIsOrderly(s, ixs[0]);
        InterlockExact(s, ixs[0]);
        AgreementExact(index, s, ixs[0]);
      }
      ConfigKept(s, ixs[0]);
      IndexAgreement(Observe(index, s, ixs[0]), t, ixs[1..]);
      DeliverFirst(index, s, ixs[0], Feed(t, ixs[1..]));
    }
  }

  lemma DeliverFirst(index: Index, s: State, ix: Instruction, later: seq<Delivery>)
    ensures ApplyAll(index, Decoded((if Step(s, ix).Some? then [Delivery(ix, Some(s.now))] else []) + later))
            == ApplyAll(Observe(index, s, ix), Decoded(later))
  {
    if Step(s, ix).Some? {
      var d := Delivery(ix, Some(s.now));
      assert ([d] + later)[1..] == later;
      ApplyNext(index, d, Decoded(later));
    } else {
      assert [] + later == later;
    }
  }

  lemma EmptyIndexAgrees(s: State)
    requires Initial(s)
    ensures AllAgree(s, map[])
  {
  }

  /** Events about unknown records: a renewal makes an entry from the block time, a child of an unknown parent has no full name, others are dropped. */
  lemma UnknownEntries(id: NameId, p: NameId, w: Pubkey, name: string, tld: string, years: nat, price: nat, ts: Option<int>)
    ensures var e := EntryAfter(None, None, Renewed(id, name, tld, years), ts);
            && e.Some? && e.value.expiresAt == Some((if ts.Some? then ts.value else 0) + 31_536_000 * years)
            && e.value.fullName == Some(name + "." + tld) && e.value.active && e.value.owner == None && e.value.listed == None
    ensures var e := EntryAfter(None, None, Wrapped(id, p, w, name), ts);
            && e.Some? && e.value.fullName == None && e.value.tld == None && e.value.owner == Some(w) && e.value.parent == Some(p)
            && e.value.registeredAt == ts && e.value.expiresAt == None && e.value.active
    ensures forall above: NameEntry :: above.fullName == Some("") ==>
              EntryAfter(None, Some(above), Wrapped(id, p, w, name), ts) == Some(EntryAfter(None, None, Wrapped(id, p, w, name), ts).value.(tld := above.tld))
    ensures EntryAfter(None, None, Transferred(id, w), ts) == EntryAfter(None, None, Burned(id), ts) == None
    ensures EntryAfter(None, None, Listed(id, w, price), ts) == EntryAfter(None, None, Unlisted(id), ts) == None
    ensures EntryAfter(None, None, Bought(id, w), ts) == None
  {
  }

  // ----- what the queries then mean

  /** The index answers ownership queries as the chain would. */
  lemma OwnersFound(s: State, index: Index, owner: Pubkey)
    requires AllAgree(s, index)
    ensures forall id :: id in index && index[id].active && index[id].owner == Some(owner)
                    <==> id in s.records && s.records[id].owner == owner
  {
    forall id ensures id in index && index[id].active && index[id].owner == Some(owner)
                      <==> id in s.records && s.records[id].owner == owner
    {
      assert Agrees(id, CellOf(s, id), Lookup(index, id));
    }
  }

  /** A full name denotes at most one entry, so a lookup by name cannot return the wrong record. */
  lemma FullNamesUnique(s: State, index: Index, a: NameId, b: NameId)
    requires AllAgree(s, index) && a in index && b in index && index[a].fullName == index[b].fullName
    ensures a == b
  {
    assert Agrees(a, CellOf(s, a), Lookup(index, a));
    assert Agrees(b, CellOf(s, b), Lookup(index, b));
  }
}
