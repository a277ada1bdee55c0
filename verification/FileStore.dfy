/** The append-only keyed store of receipts (src/rail/ledger/file.py). */
module FileStore {

  /**
   * One receipt. Its digest stands for the hash of its content: the environment supplies it,
   * and what a proof needs of it (no two receipts share one) is stated where it is needed.
   */
  datatype Receipt<K, D> = Receipt(
    project: string, key: K, kind: string, data: D, issuer: string, at: int, digest: int)

  datatype Written<K, D> = Written(receipt: Receipt<K, D>) | KeyConflict(other: Receipt<K, D>)

  predicate IsUnderKey<K(==), D>(r: Receipt<K, D>, project: string, key: K) {
    r.project == project && r.key == key
  }

  ghost predicate KeysAreUnique<K, D>(s: seq<Receipt<K, D>>) {
    forall i, j :: 0 <= i < j < |s| ==> !(s[i].project == s[j].project && s[i].key == s[j].key)
  }

  /** The order `_records` lists receipts in: by instant, ties by digest. */
  ghost predicate IsByInstant<K, D>(s: seq<Receipt<K, D>>) {
    forall i, j :: 0 <= i < j < |s| ==> s[i].at <= s[j].at
  }

  /** `s` with `r` put in at place `k`. */
  function InsertAt<K, D>(s: seq<Receipt<K, D>>, k: nat, r: Receipt<K, D>): seq<Receipt<K, D>>
    requires k <= |s|
  {
    s[..k] + [r] + s[k..]
  }

  function RemoveAt<K, D>(s: seq<Receipt<K, D>>, k: nat): seq<Receipt<K, D>>
    requires k < |s|
  {
    s[..k] + s[k + 1..]
  }

  class FileLedger<K(==,!new), D(==,!new)> {
    /** Every receipt of the directory, as `_records` lists them. */
    var records: seq<Receipt<K, D>>

    ghost predicate Valid()
      reads this
    {
      KeysAreUnique(records) && IsByInstant(records)
    }

    predicate HasKey(project: string, key: K)
      reads this
    {
      exists r :: r in records && IsUnderKey(r, project, key)
    }

    constructor ()
      ensures Valid() && records == []
    {
      records := [];
    }

    /**
     * `_append`: the same key and content is the receipt already there, the same key with other
     * content is a conflict, and a new key is one more file, listed by its instant.
     */
    method Append(project: string, key: K, kind: string, data: D, issuer: string, at: int, digest: int)
      returns (w: Written<K, D>)
      requires Valid()
      modifies this
      ensures Valid()
      ensures old(HasKey(project, key)) ==> records == old(records)
      ensures old(HasKey(project, key)) && w.Written? ==>
        w.receipt in records && IsUnderKey(w.receipt, project, key) && w.receipt.kind == kind && w.receipt.data == data
      ensures w.KeyConflict? ==>
        && old(HasKey(project, key)) && w.other in records && IsUnderKey(w.other, project, key)
        && (w.other.kind != kind || w.other.data != data)
      ensures !old(HasKey(project, key)) ==>
        && w == Written(Receipt(project, key, kind, data, issuer, at, digest))
        && exists k :: 0 <= k <= |old(records)| && records == InsertAt(old(records), k, w.receipt)
      ensures !old(HasKey(project, key)) ==>
        forall x :: x in records <==> x in old(records) || x == w.receipt
      ensures !old(HasKey(project, key)) && (forall r :: r in old(records) ==> r.at < at) ==>
        records == old(records) + [w.receipt]
    {
      for i := 0 to |records|
        invariant forall j :: 0 <= j < i ==> !IsUnderKey(records[j], project, key)
      {
        var existing := records[i];
        if existing.project == project && existing.key == key {
          assert existing in records;
          if existing.kind == kind && existing.data == data {
            return Written(existing);
          }
          return KeyConflict(existing);
        }
      }
      var receipt := Receipt(project, key, kind, data, issuer, at, digest);
      Put(receipt);
      return Written(receipt);
    }

    /** One more file. Among receipts of one instant the digest decides: any such place may be the one. */
    method Put(receipt: Receipt<K, D>)
      requires Valid() && forall j :: 0 <= j < |records| ==> !IsUnderKey(records[j], receipt.project, receipt.key)
      modifies this
      ensures Valid()
      ensures exists k :: 0 <= k <= |old(records)| && records == InsertAt(old(records), k, receipt)
      ensures forall x :: x in records <==> x in old(records) || x == receipt
      ensures (forall r :: r in old(records) ==> r.at < receipt.at) ==> records == old(records) + [receipt]
    {
      var k := PlaceFor(receipt.at);
      ghost var before := records;
      records := InsertAt(records, k, receipt);
      InsertedMeans(before, k, receipt);
      if k == |before| {
        assert InsertAt(before, k, receipt) == before + [receipt];
      }
    }

    /** A place that keeps the list ordered by instant. */
    method PlaceFor(at: int) returns (k: nat)
      requires Valid()
      ensures k <= |records|
      ensures forall i :: 0 <= i < k ==> records[i].at <= at
      ensures forall i :: k <= i < |records| ==> at <= records[i].at
      ensures (forall r :: r in records ==> r.at < at) ==> k == |records|
    {
      k := 0;
      while k < |records| && records[k].at < at
        invariant k <= |records|
        invariant forall i :: 0 <= i < k ==> records[i].at < at
      {
        k := k + 1;
      }
      if * {
        while k < |records| && records[k].at == at
          invariant k <= |records|
          invariant forall i :: 0 <= i < k ==> records[i].at <= at
        {
          k := k + 1;
        }
      }
    }

    /** `unlink(missing_ok=True)`: one file leaves the directory, if it is still there. */
    method Unlink(r: Receipt<K, D>)
      requires Valid()
      modifies this
      ensures Valid()
      ensures forall x :: x in records <==> x in old(records) && x != r
    {
      var k := 0;
      while k < |records| && records[k] != r
        invariant k <= |records|
        invariant forall i :: 0 <= i < k ==> records[i] != r
      {
        k := k + 1;
      }
      if k < |records| {
        var before := records;
        records := RemoveAt(records, k);
        RemovedMeans(before, k);
      }
    }
  }

  lemma InsertedMeans<K(!new), D(!new)>(s: seq<Receipt<K, D>>, k: nat, r: Receipt<K, D>)
    requires k <= |s|
    ensures forall x :: x in InsertAt(s, k, r) <==> x in s || x == r
  {
  }

  lemma RemovedMeans<K(!new), D(!new)>(s: seq<Receipt<K, D>>, k: nat)
    requires k < |s| && KeysAreUnique(s)
    ensures forall x :: x in RemoveAt(s, k) <==> x in s && x != s[k]
  {
  }
}
