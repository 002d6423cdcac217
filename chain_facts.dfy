/**
 * What the ledger operations guarantee about validation: chains built only
 * by appending pass, a status update passes or breaks the next link,
 * tampering with a transaction's fields is detected from index 1 on, and
 * index 0 is never examined.
 */
module ChainFacts {
  import opened Commitment
  import opened Chain

  /** The ledger obtained by appending each (drug, clock reading) in turn to an empty ledger. */
  function Build(h: Hasher, adds: seq<(Drug, Stamp)>): (es: seq<Entry>)
    ensures |es| == |adds|
    ensures forall i :: 0 <= i < |es| ==> es[i].drug == adds[i].0 && es[i].timestamp == adds[i].1
  {
    if adds == [] then []
    else
      var last := adds[|adds| - 1];
      Append(h, Build(h, adds[..|adds| - 1]), last.0, last.1)
  }

  /** Appending keeps every link and every entry's own digest right. */
  lemma AppendKeepsSound(h: Hasher, es: seq<Entry>, drug: Drug, now: Stamp)
    requires Sound(h, es)
    ensures Sound(h, Append(h, es, drug, now))
  {
    var r := Append(h, es, drug, now);
    forall i | 1 <= i < |r|
      ensures EntryOk(h, r, i)
    {
      if i < |es| {
        assert r[i] == es[i] && r[i - 1] == es[i - 1];
        assert EntryOk(h, es, i);
      }
    }
  }

  /** Any sequence of appends to an empty ledger yields a chain that validation accepts. */
  lemma {:induction false} BuildIsSound(h: Hasher, adds: seq<(Drug, Stamp)>)
    ensures Sound(h, Build(h, adds))
    ensures Verify(h, Build(h, adds)) == Intact
  {
    if adds != [] {
      var last := adds[|adds| - 1];
      BuildIsSound(h, adds[..|adds| - 1]);
      AppendKeepsSound(h, Build(h, adds[..|adds| - 1]), last.0, last.1);
    }
  }

  /** A ledger of zero or one transactions passes, whatever that transaction holds. */
  lemma ShortChainPasses(h: Hasher, es: seq<Entry>)
    requires |es| <= 1
    ensures Verify(h, es) == Intact
  {
  }

  /** Two ledgers that pass and fail the same checks at every index from `from` on get the same verdict. */
  lemma {:induction false} SameChecksSameScan(h: Hasher, es: seq<Entry>, fs: seq<Entry>, from: nat)
    requires 1 <= from && |es| == |fs|
    requires forall i :: from <= i < |es| ==> Linked(es, i) == Linked(fs, i)
    requires forall i :: from <= i < |es| ==> SelfConsistent(h, es[i]) == SelfConsistent(h, fs[i])
    ensures Scan(h, es, from) == Scan(h, fs, from)
    decreases |es| - from
  {
    if from < |es| {
      SameChecksSameScan(h, es, fs, from + 1);
    }
  }

  /** Validation reports the smallest failing index, and a broken link there before a bad digest. */
  lemma FirstFailureReported(h: Hasher, es: seq<Entry>, k: nat)
    requires 1 <= k < |es| && !EntryOk(h, es, k)
    requires forall j :: 1 <= j < k ==> EntryOk(h, es, j)
    ensures Verify(h, es) == if Linked(es, k) then BadHash(k) else BrokenLink(k)
  {
  }

  /**
   * Index 0 is never rechecked: replacing the first transaction by anything
   * holding the same stored digest leaves the verdict unchanged.
   */
  lemma HeadIsNeverRechecked(h: Hasher, es: seq<Entry>, e: Entry)
    requires |es| >= 1 && e.hash == es[0].hash
    ensures Verify(h, es[0 := e]) == Verify(h, es)
  {
    var fs := es[0 := e];
    forall i | 1 <= i < |es|
      ensures Linked(es, i) == Linked(fs, i)
    {
      assert fs[i] == es[i];
    }
    SameChecksSameScan(h, es, fs, 1);
  }

  /**
   * Editing a transaction's fields from index 1 on without recomputing its
   * digest is reported at that index, provided the edit changes the digest.
   */
  lemma TamperIsDetected(h: Hasher, es: seq<Entry>, i: nat, e: Entry)
    requires ChainValid(h, es)
    requires 1 <= i < |es|
    requires e.prevHash == es[i].prevHash && e.hash == es[i].hash
    requires CalculateHash(h, e) != CalculateHash(h, es[i])
    ensures Verify(h, es[i := e]) == BadHash(i)
  {
    var fs := es[i := e];
    assert EntryOk(h, es, i);
    forall j | 1 <= j < i
      ensures EntryOk(h, fs, j)
    {
      assert EntryOk(h, es, j);
      assert fs[j] == es[j] && fs[j - 1] == es[j - 1];
    }
    assert Linked(fs, i);
    FirstFailureReported(h, fs, i);
  }

  /**
   * On a valid ledger, a status update keeps it valid when the updated
   * transaction is the last one or its digest does not change.
   */
  lemma UpdateKeepsChainValid(h: Hasher, es: seq<Entry>, name: string, status: string)
    requires ChainValid(h, es)
    requires FindFirst(es, name).Some? ==>
      var k := FindFirst(es, name).value;
      k == |es| - 1 || Restatus(h, es[k], status).hash == es[k].hash
    ensures ChainValid(h, UpdateStatus(h, es, name, status))
  {
    var r := UpdateStatus(h, es, name, status);
    if FindFirst(es, name).Some? {
      var k := FindFirst(es, name).value;
      assert r == es[k := Restatus(h, es[k], status)];
      forall i | 1 <= i < |r|
        ensures EntryOk(h, r, i)
      {
        assert EntryOk(h, es, i);
        if i == k + 1 {
          assert r[i - 1].hash == es[i - 1].hash;
        }
      }
    }
  }

  /**
   * On a valid ledger, a status update that changes the digest of a
   * transaction with a successor breaks the successor's link, and
   * validation reports exactly that.
   */
  lemma UpdateBreaksNextLink(h: Hasher, es: seq<Entry>, name: string, status: string, k: nat)
    requires ChainValid(h, es)
    requires FindFirst(es, name) == Some(k) && k + 1 < |es|
    requires Restatus(h, es[k], status).hash != es[k].hash
    ensures Verify(h, UpdateStatus(h, es, name, status)) == BrokenLink(k + 1)
  {
    var r := UpdateStatus(h, es, name, status);
    assert r == es[k := Restatus(h, es[k], status)];
    forall j | 1 <= j < k + 1
      ensures EntryOk(h, r, j)
    {
      assert EntryOk(h, es, j);
    }
    assert EntryOk(h, es, k + 1);
    assert !Linked(r, k + 1);
    FirstFailureReported(h, r, k + 1);
  }
}
