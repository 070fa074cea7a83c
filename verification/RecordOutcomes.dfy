/**
 * What each free instruction on a name does to the whole state, and exactly when: one equation per
 * instruction, from its arguments and the stored fields to the state it leaves.
 */
module RecordOutcomes {
  import opened Prelude
  import opened Naming
  import opened Ledger
  import opened RecordStore
  import opened Registry

  /** The signer is the recorded owner, and the name is neither tokenized nor on sale. */
  predicate FreeOwner(s: State, id: NameId, signer: Pubkey) {
    && id in s.records
    && s.records[id].owner == signer && s.records[id].nftMint == None && s.records[id].listed == false
  }

  /** The signer holds the name: by its NFT while tokenized, by the record otherwise; and it is not on sale. */
  predicate Holder(s: State, id: NameId, signer: Pubkey, nft: Option<NftAccount>) {
    && id in s.records && s.records[id].listed == false
    && match s.records[id].nftMint
       case None => s.records[id].owner == signer
       case Some(mint) => nft == Some(NftAccount(mint, signer, 1))
  }

  predicate HolderOrDelegate(s: State, id: NameId, signer: Pubkey, nft: Option<NftAccount>) {
    Holder(s, id, signer, nft) || (id in s.records && s.records[id].listed == false && s.records[id].controller == Some(signer))
  }

  /** The state with one record replaced; nothing else changes, and nobody pays. */
  function WithRecord(s: State, id: NameId, r: NameRecord): State {
    s.(records := s.records[id := r])
  }

  lemma FreeStep(s: State, id: NameId, op: NameOp, r: Option<NameRecord>)
    requires Perform(EnvOf(s), id, CellOf(s, id), op) == Some(Effect(CellOf(s, id).(record := r), []))
    ensures Step(s, OnName(id, op)) == Some(s.(records := Put(s.records, id, r)))
  {
    OnRecordIs(s, id, op, r, []);
    assert MakeMoves(s.bank, []) == Some(s.bank);
  }

  lemma RefusedStep(s: State, id: NameId, op: NameOp)
    requires Perform(EnvOf(s), id, CellOf(s, id), op).None?
    ensures Step(s, OnName(id, op)).None?
  {
    OnNameIs(s, id, op, None);
  }

  lemma ReleaseIs(s: State, id: NameId, signer: Pubkey)
    ensures Step(s, OnName(id, Release(signer)))
            == if FreeOwner(s, id, signer) then Some(s.(records := s.records - {id})) else None
  {
    if FreeOwner(s, id, signer) {
      FreeStep(s, id, Release(signer), None);
    } else {
      RefusedStep(s, id, Release(signer));
    }
  }

  lemma GiveIs(s: State, id: NameId, signer: Pubkey, newOwner: Pubkey)
    ensures Step(s, OnName(id, Give(signer, newOwner)))
            == if FreeOwner(s, id, signer) && !s.records[id].transferLocked
               then Some(WithRecord(s, id, s.records[id].(owner := newOwner, controller := None, reverseSet := false)))
               else None
  {
    if FreeOwner(s, id, signer) && !s.records[id].transferLocked {
      FreeStep(s, id, Give(signer, newOwner), Some(s.records[id].(owner := newOwner, controller := None, reverseSet := false)));
    } else {
      RefusedStep(s, id, Give(signer, newOwner));
    }
  }

  lemma DelegateIs(s: State, id: NameId, signer: Pubkey, controller: Option<Pubkey>)
    ensures Step(s, OnName(id, Delegate(signer, controller)))
            == if FreeOwner(s, id, signer) then Some(WithRecord(s, id, s.records[id].(controller := controller))) else None
  {
    if FreeOwner(s, id, signer) {
      FreeStep(s, id, Delegate(signer, controller), Some(s.records[id].(controller := controller)));
    } else {
      RefusedStep(s, id, Delegate(signer, controller));
    }
  }

  lemma LockIs(s: State, id: NameId, signer: Pubkey, lock: bool)
    ensures Step(s, OnName(id, Lock(signer, lock)))
            == if FreeOwner(s, id, signer) then Some(WithRecord(s, id, s.records[id].(transferLocked := lock))) else None
  {
    if FreeOwner(s, id, signer) {
      FreeStep(s, id, Lock(signer, lock), Some(s.records[id].(transferLocked := lock)));
    } else {
      RefusedStep(s, id, Lock(signer, lock));
    }
  }

  lemma ResolverIs(s: State, id: NameId, signer: Pubkey, nft: Option<NftAccount>, resolver: Option<Pubkey>)
    ensures Step(s, OnName(id, Resolver(signer, nft, resolver)))
            == if Holder(s, id, signer, nft) then Some(WithRecord(s, id, s.records[id].(resolver := resolver))) else None
  {
    if Holder(s, id, signer, nft) {
      FreeStep(s, id, Resolver(signer, nft, resolver), Some(s.records[id].(resolver := resolver)));
    } else {
      RefusedStep(s, id, Resolver(signer, nft, resolver));
    }
  }

  lemma HostingIs(s: State, id: NameId, signer: Pubkey, nft: Option<NftAccount>, hosting: Option<string>)
    ensures Step(s, OnName(id, Hosting(signer, nft, hosting)))
            == if HolderOrDelegate(s, id, signer, nft) && (hosting.None? || |Utf8(hosting.value)| <= 80)
               then Some(WithRecord(s, id, s.records[id].(hostingRef := hosting))) else None
  {
    if HolderOrDelegate(s, id, signer, nft) && (hosting.None? || |Utf8(hosting.value)| <= 80) {
      FreeStep(s, id, Hosting(signer, nft, hosting), Some(s.records[id].(hostingRef := hosting)));
    } else {
      RefusedStep(s, id, Hosting(signer, nft, hosting));
    }
  }

  /** A write of at most 200 bytes under a key of at most 32, into a free slot or over the same key; a delete of a present key. */
  predicate Writable(rs: seq<Record>, key: string, value: Option<string>) {
    && |Utf8(key)| <= 32
    && match value
       case Some(v) => |Utf8(v)| <= 200 && (HasKey(rs, key) || |rs| < 16)
       case None => HasKey(rs, key)
  }

  predicate HasKey(rs: seq<Record>, key: string) {
    exists i :: 0 <= i < |rs| && rs[i].key == key
  }

  lemma FindsKey(rs: seq<Record>, key: string)
    ensures Find(rs, key) < |rs| <==> HasKey(rs, key)
    ensures key in Contents(rs) <==> HasKey(rs, key)
  {
    FindContents(rs, key);
  }

  lemma WrittenExact(rs: seq<Record>, key: string, value: Option<string>)
    requires WellFormed(rs)
    ensures Written(rs, key, value).Some? <==> Writable(rs, key, value)
  {
    FindsKey(rs, key);
    if value.None? {
      DeleteIsRemove(rs, key);
    }
  }

  /** Who may write, what, and when; the vector afterwards is an updated map, other fields stay. */
  lemma WriteIs(s: State, id: NameId, signer: Pubkey, nft: Option<NftAccount>, key: string, value: Option<string>)
    requires id in s.records ==> WellFormed(s.records[id].records)
    ensures var t := Step(s, OnName(id, Write(signer, nft, key, value)));
            && (t.Some? <==> HolderOrDelegate(s, id, signer, nft) && Writable(s.records[id].records, key, value))
            && (t.Some? ==> id in t.value.records && t.value == WithRecord(s, id, s.records[id].(records := t.value.records[id].records)))
  {
    if id in s.records {
      WrittenExact(s.records[id].records, key, value);
    }
    if HolderOrDelegate(s, id, signer, nft) && Writable(s.records[id].records, key, value) {
      FreeStep(s, id, Write(signer, nft, key, value),
               Some(s.records[id].(records := Written(s.records[id].records, key, value).value)));
    } else {
      RefusedStep(s, id, Write(signer, nft, key, value));
    }
  }

  lemma TokenizeIs(s: State, id: NameId, signer: Pubkey, name: string, mint: Pubkey)
    ensures Step(s, OnName(id, Tokenize(signer, name, mint)))
            == if FreeOwner(s, id, signer) && s.records[id].parent == None && id == TopLevel(name, s.records[id].tld)
               then Some(WithRecord(s, id, s.records[id].(nftMint := Some(mint)))) else None
  {
    if FreeOwner(s, id, signer) && s.records[id].parent == None && id == TopLevel(name, s.records[id].tld) {
      FreeStep(s, id, Tokenize(signer, name, mint), Some(s.records[id].(nftMint := Some(mint))));
    } else {
      RefusedStep(s, id, Tokenize(signer, name, mint));
    }
  }

  lemma RedeemIs(s: State, id: NameId, nft: NftAccount)
    ensures Step(s, OnName(id, Redeem(nft)))
            == if id in s.records && s.records[id].nftMint == Some(nft.mint) && nft.amount == 1
               then Some(WithRecord(s, id, s.records[id].(owner := nft.owner, controller := None, reverseSet := false, nftMint := None)))
               else None
  {
    if id in s.records && s.records[id].nftMint == Some(nft.mint) && nft.amount == 1 {
      FreeStep(s, id, Redeem(nft), Some(s.records[id].(owner := nft.owner, controller := None, reverseSet := false, nftMint := None)));
    } else {
      RefusedStep(s, id, Redeem(nft));
    }
  }

  // ----- subdomains and reverse records

  /** A child starts now, inherits TLD and expiry, and captures its parent's birth; four levels at most. */
  lemma WrapIs(s: State, signer: Pubkey, parent: NameId, name: string, owner: Pubkey)
    ensures Step(s, WrapSubdomain(signer, parent, name, owner))
            == if FreeOwner(s, parent, signer) && s.now <= s.records[parent].expiresAt && ValidLabel(name)
                  && s.records[parent].depth < 4 && Subdomain(parent, name) !in s.records
               then var p := s.records[parent];
                    Some(WithRecord(s, Subdomain(parent, name),
                                    NameRecord(owner, None, p.tld, s.now, p.expiresAt, [], None, None, false, false, None,
                                               Some(parent), p.registeredAt, p.depth + 1, false)))
               else None
  {
  }

  lemma RevokeIs(s: State, signer: Pubkey, parent: NameId, child: NameId)
    ensures Step(s, RevokeSubdomain(signer, parent, child))
            == if parent in s.records && s.records[parent].owner == signer
                  && child in s.records && s.records[child].parent == Some(parent) && s.records[child].nftMint == None
               then Some(s.(records := s.records - {child})) else None
  {
  }

  lemma SetReverseIs(s: State, signer: Pubkey, id: NameId, name: string)
    ensures Step(s, SetReverse(signer, id, name))
            == if FreeOwner(s, id, signer) && s.records[id].parent == None && id == TopLevel(name, s.records[id].tld)
               then Some(WithRecord(s, id, s.records[id].(reverseSet := true)).(
                           reverses := s.reverses[signer := Reverse(id, name, s.records[id].tld)]))
               else None
  {
  }
}
