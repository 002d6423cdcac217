/**
 * The ledger as Pharma.py keeps it: a list of transaction objects that
 * `add_drug` appends to and `update_drug_status` edits in place. Each
 * method is specified against the functions of module Chain on the
 * snapshot `entries`.
 */
module SupplyChain {
  import opened Commitment
  import opened Chain
  import opened ChainFacts

  /** One ledger record; it owns its drug, whose status is changed in place. */
  class Transaction {
    var drug: Drug
    var prevHash: string
    var timestamp: Stamp
    var hash: string

    /** Links `drug` to `prevHash` at clock reading `now` and commits to both. */
    constructor (h: Hasher, drug: Drug, prevHash: string, now: Stamp)
      ensures View() == NewEntry(h, drug, prevHash, now)
      ensures hash == CalculateHash(h)
    {
      this.drug := drug;
      this.prevHash := prevHash;
      this.timestamp := now;
      new;
      hash := CalculateHash(h);
    }

    /** The digest over the transaction's current fields; the drug's own timestamp never enters it. */
    function CalculateHash(h: Hasher): (r: string)
      reads this
      ensures forall t: Stamp :: r == Commit(h, drug.(timestamp := t), timestamp, prevHash)
    {
      Commit(h, drug, timestamp, prevHash)
    }

    /** The transaction's current state as a value. */
    function View(): Entry
      reads this
    {
      Entry(drug, prevHash, timestamp, hash)
    }
  }

  class PharmaSupplyChain {
    const hasher: Hasher
    var chain: seq<Transaction>
    /** The snapshot of `chain`, one entry per transaction. */
    ghost var entries: seq<Entry>

    /** Transactions are distinct objects and `entries` is their current state. */
    ghost predicate Valid()
      reads this, chain
    {
      && |chain| == |entries|
      && (forall i, j :: 0 <= i < j < |chain| ==> chain[i] != chain[j])
      && forall i :: 0 <= i < |chain| ==> chain[i].View() == entries[i]
    }

    constructor (hasher: Hasher)
      ensures Valid() && this.hasher == hasher && entries == []
    {
      this.hasher := hasher;
      chain := [];
      entries := [];
    }

    /** `add_drug`: appends a transaction linked to the tail and returns its digest. */
    method AddDrug(drug: Drug, now: Stamp) returns (digest: string)
      requires Valid()
      modifies this
      ensures Valid()
      ensures entries == Append(hasher, old(entries), drug, now)
      ensures digest == entries[|entries| - 1].hash
      ensures |chain| == |old(chain)| + 1 && chain[..|old(chain)|] == old(chain)
      ensures fresh(chain[|chain| - 1])
    {
      var prevHash := if |chain| > 0 then chain[|chain| - 1].hash else "";
      var transaction := new Transaction(hasher, drug, prevHash, now);
      chain := chain + [transaction];
      entries := entries + [transaction.View()];
      digest := transaction.hash;
    }

    /**
     * `update_drug_status`: the first transaction whose drug is called `name`
     * gets the new status and a recomputed digest; returns its index, or
     * None when no drug has that name.
     */
    method UpdateDrugStatus(name: string, status: string) returns (updated: Option<nat>)
      requires Valid()
      modifies this, chain
      ensures Valid() && chain == old(chain)
      ensures updated == FindFirst(old(entries), name)
      ensures entries == UpdateStatus(hasher, old(entries), name, status)
    {
      var i := 0;
      while i < |chain|
        invariant 0 <= i <= |chain|
        invariant Valid() && chain == old(chain) && entries == old(entries)
        invariant forall j :: 0 <= j < i ==> entries[j].drug.name != name
      {
        var transaction := chain[i];
        if transaction.drug.name == name {
          transaction.drug := transaction.drug.(status := status);
          transaction.hash := transaction.CalculateHash(hasher);
          entries := entries[i := transaction.View()];
          updated := Some(i);
          return;
        }
        i := i + 1;
      }
      updated := None;
    }

    /** `get_drug_info`: the drug of the first transaction whose drug is called `name`, if any. */
    method GetDrugInfo(name: string) returns (info: Option<Drug>)
      requires Valid()
      ensures info.None? <==> FindFirst(entries, name).None?
      ensures info.Some? ==> info.value == entries[FindFirst(entries, name).value].drug
    {
      var i := 0;
      while i < |chain|
        invariant 0 <= i <= |chain|
        invariant forall j :: 0 <= j < i ==> entries[j].drug.name != name
      {
        var transaction := chain[i];
        if transaction.drug.name == name {
          return Some(transaction.drug);
        }
        i := i + 1;
      }
      return None;
    }

    /**
     * `validate_chain`: walks the chain from index 1, checking each link and
     * then each digest, and reports the first failure.
     */
    method ValidateChain() returns (verdict: Verdict)
      requires Valid()
      ensures verdict == Verify(hasher, entries)
    {
      var i := 1;
      while i < |chain|
        invariant 1 <= i
        invariant Scan(hasher, entries, i) == Verify(hasher, entries)
      {
        var current := chain[i];
        var previous := chain[i - 1];
        if current.prevHash != previous.hash {
          return BrokenLink(i);
        }
        if current.hash != current.CalculateHash(hasher) {
          return BadHash(i);
        }
        i := i + 1;
      }
      return Intact;
    }
  }

  /**
   * A caller that makes a new ledger, adds each drug in turn and then
   * validates: the verdict is always Intact.
   */
  method AddAllThenValidate(h: Hasher, adds: seq<(Drug, Stamp)>) returns (verdict: Verdict)
    ensures verdict == Intact
  {
    var ledger := new PharmaSupplyChain(h);
    var n := 0;
    while n < |adds|
      invariant 0 <= n <= |adds|
      invariant ledger.Valid() && ledger.hasher == h
      invariant Sound(h, ledger.entries)
    {
      var (drug, now) := adds[n];
      AppendKeepsSound(h, ledger.entries, drug, now);
      var _ := ledger.AddDrug(drug, now);
      n := n + 1;
    }
    verdict := ledger.ValidateChain();
  }

  /**
   * A caller that adds two drugs, updates the first one's status and then
   * validates: the update finds index 0, and validation reports a broken
   * link at index 1 exactly when the update changed the first digest.
   */
  method AddUpdateValidate(h: Hasher, first: Drug, second: Drug, t0: Stamp, t1: Stamp, status: string)
    returns (updated: Option<nat>, verdict: Verdict)
    ensures updated == Some(0)
    ensures verdict == if Commit(h, first.(status := status), t0, "") == Commit(h, first, t0, "")
                       then Intact else BrokenLink(1)
  {
    var ledger := new PharmaSupplyChain(h);
    AppendKeepsSound(h, ledger.entries, first, t0);
    var _ := ledger.AddDrug(first, t0);
    AppendKeepsSound(h, ledger.entries, second, t1);
    var _ := ledger.AddDrug(second, t1);
    ghost var before := ledger.entries;
    assert before[0].drug == first && before[0].prevHash == "" && before[0].timestamp == t0;
    assert FindFirst(before, first.name) == Some(0);
    updated := ledger.UpdateDrugStatus(first.name, status);
    if Restatus(h, before[0], status).hash == before[0].hash {
      UpdateKeepsChainValid(h, before, first.name, status);
    } else {
      UpdateBreaksNextLink(h, before, first.name, status, 0);
    }
    verdict := ledger.ValidateChain();
  }
}
