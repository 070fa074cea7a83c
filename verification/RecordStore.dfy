/** The key-value records stored inside a name account. */
module RecordStore {
  import opened Prelude

  datatype Record = Record(key: string, value: string)

  const MAX_RECORDS := 16

  predicate DistinctKeys(rs: seq<Record>) {
    forall i, j :: 0 <= i < j < |rs| ==> rs[i].key != rs[j].key
  }

  predicate WellFormed(rs: seq<Record>) {
    DistinctKeys(rs) && |rs| <= MAX_RECORDS
  }

  /** The store as a finite map. */
  ghost function Contents(rs: seq<Record>): map<string, string> {
    if rs == [] then map[] else Contents(rs[1..])[rs[0].key := rs[0].value]
  }

  function Find(rs: seq<Record>, key: string): (i: nat)
    ensures i <= |rs|
    ensures i < |rs| ==> rs[i].key == key
    ensures forall j :: 0 <= j < i ==> rs[j].key != key
  {
    if rs == [] || rs[0].key == key then 0 else 1 + Find(rs[1..], key)
  }

  function Retain(rs: seq<Record>, key: string): seq<Record> {
    if rs == [] then []
    else if rs[0].key == key then Retain(rs[1..], key)
    else [rs[0]] + Retain(rs[1..], key)
  }

  function Upsert(rs: seq<Record>, key: string, value: string): Option<seq<Record>> {
    var i := Find(rs, key);
    if i < |rs| then Some(rs[i := Record(key, value)])
    else if |rs| < MAX_RECORDS then Some(rs + [Record(key, value)])
    else None
  }

  function Delete(rs: seq<Record>, key: string): Option<seq<Record>> {
    if |Retain(rs, key)| == |rs| then None else Some(Retain(rs, key))
  }

  /** The vector inside an account, mutated in place by the two record operations. */
  class Store {
    var records: seq<Record>

    constructor (records: seq<Record>)
      ensures this.records == records
    {
      this.records := records;
    }

    method UpsertRecord(key: string, value: string) returns (ok: bool)
      modifies this
      ensures ok <==> Upsert(old(records), key, value).Some?
      ensures records == if ok then Upsert(old(records), key, value).value else old(records)
    {
      var i := 0;
      while i < |records| && records[i].key != key
        invariant 0 <= i <= Find(records, key)
      {
        i := i + 1;
      }
      if i < |records| {
        assert i == Find(records, key);
        records := records[i := Record(key, value)];
      } else {
        if |records| >= MAX_RECORDS { return false; }
        records := records + [Record(key, value)];
      }
      return true;
    }

    method DeleteRecord(key: string) returns (ok: bool)
      modifies this
      ensures ok <==> Delete(old(records), key).Some?
      ensures ok ==> records == Delete(old(records), key).value
      ensures !ok ==> records == old(records)
    {
      var before := |records|;
      var kept: seq<Record> := [];
      for i := 0 to |records|
        invariant Retain(records, key) == kept + Retain(records[i..], key)
      {
        if records[i].key != key { kept := kept + [records[i]]; }
      }
      assert records[|records|..] == [];
      RetainSameLength(records, key);
      records := kept;
      return |records| != before;
    }
  }

  lemma {:induction false} RetainSameLength(rs: seq<Record>, key: string)
    ensures |Retain(rs, key)| <= |rs|
    ensures |Retain(rs, key)| == |rs| ==> Retain(rs, key) == rs
  {
    if rs != [] {
      RetainSameLength(rs[1..], key);
      assert rs == [rs[0]] + rs[1..];
    }
  }

  lemma {:induction false} FindContents(rs: seq<Record>, key: string)
    ensures Find(rs, key) < |rs| <==> key in Contents(rs)
  {
    if rs != [] && rs[0].key != key {
      FindContents(rs[1..], key);
    }
  }

  lemma {:induction false} ReplaceContents(rs: seq<Record>, key: string, value: string)
    requires Find(rs, key) < |rs|
    ensures Contents(rs[Find(rs, key) := Record(key, value)]) == Contents(rs)[key := value]
  {
    var after := rs[Find(rs, key) := Record(key, value)];
    if rs[0].key == key {
      assert after[1..] == rs[1..];
    } else {
      ReplaceContents(rs[1..], key, value);
      assert after[1..] == rs[1..][Find(rs[1..], key) := Record(key, value)];
    }
  }

  lemma {:induction false} AppendContents(rs: seq<Record>, key: string, value: string)
    requires key !in Contents(rs)
    ensures Contents(rs + [Record(key, value)]) == Contents(rs)[key := value]
  {
    var after := rs + [Record(key, value)];
    if rs == [] {
      assert after[1..] == [];
    } else {
      assert after[1..] == rs[1..] + [Record(key, value)];
      AppendContents(rs[1..], key, value);
    }
  }

  /** An upsert is a map update; it is refused exactly when a new key meets a full store. */
  lemma UpsertIsUpdate(rs: seq<Record>, key: string, value: string)
    requires WellFormed(rs)
    ensures Upsert(rs, key, value).None? <==> |rs| == MAX_RECORDS && key !in Contents(rs)
    ensures Upsert(rs, key, value).Some? ==>
              && WellFormed(Upsert(rs, key, value).value)
              && Contents(Upsert(rs, key, value).value) == Contents(rs)[key := value]
  {
    FindContents(rs, key);
    if Find(rs, key) < |rs| {
      ReplaceContents(rs, key, value);
    } else {
      AppendContents(rs, key, value);
    }
  }

  lemma {:induction false} RetainContents(rs: seq<Record>, key: string)
    ensures Contents(Retain(rs, key)) == Contents(rs) - {key}
  {
    if rs != [] {
      RetainContents(rs[1..], key);
      var rest := Retain(rs[1..], key);
      assert ([rs[0]] + rest)[1..] == rest;
    }
  }

  lemma {:induction false} RetainAbsent(rs: seq<Record>, key: string)
    requires key !in Contents(rs)
    ensures Retain(rs, key) == rs
  {
    if rs != [] {
      RetainAbsent(rs[1..], key);
    }
  }

  lemma {:induction false} RetainMembers(rs: seq<Record>, key: string)
    ensures forall r :: r in Retain(rs, key) ==> r in rs
  {
    if rs != [] {
      RetainMembers(rs[1..], key);
      assert forall r :: r in rs[1..] ==> r in rs;
    }
  }

  lemma DistinctCons(r: Record, rest: seq<Record>)
    requires DistinctKeys(rest) && forall q :: q in rest ==> q.key != r.key
    ensures DistinctKeys([r] + rest)
  {
    var all := [r] + rest;
    forall i, j | 0 <= i < j < |all| ensures all[i].key != all[j].key {
      assert all[j] == rest[j - 1] && all[j] in rest;
      if i > 0 {
        assert all[i] == rest[i - 1];
      }
    }
  }

  lemma {:induction false} RetainDistinct(rs: seq<Record>, key: string)
    requires DistinctKeys(rs)
    ensures DistinctKeys(Retain(rs, key))
  {
    if rs != [] {
      RetainDistinct(rs[1..], key);
      if rs[0].key != key {
        RetainMembers(rs[1..], key);
        assert forall q :: q in rs[1..] ==> q.key != rs[0].key;
        DistinctCons(rs[0], Retain(rs[1..], key));
      }
    }
  }

  /** A delete removes exactly one key, and is refused exactly when the key is absent. */
  lemma DeleteIsRemove(rs: seq<Record>, key: string)
    requires WellFormed(rs)
    ensures Delete(rs, key).None? <==> key !in Contents(rs)
    ensures Delete(rs, key).Some? ==>
              && WellFormed(Delete(rs, key).value)
              && Contents(Delete(rs, key).value) == Contents(rs) - {key}
  {
    RetainDistinct(rs, key);
    RetainSameLength(rs, key);
    RetainContents(rs, key);
    if key !in Contents(rs) {
      RetainAbsent(rs, key);
    }
  }
}
