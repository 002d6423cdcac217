/**
 * The ledger as a value: the sequence of transaction snapshots, and the
 * functions that specify what each ledger operation computes on it.
 */
module Chain {
  import opened Commitment

  datatype Option<T> = None | Some(value: T)

  /** A snapshot of one transaction: its drug, the predecessor's digest, its own clock reading and its stored digest. */
  datatype Entry = Entry(drug: Drug, prevHash: string, timestamp: Stamp, hash: string)

  /** The outcome of validation: intact, or the first index whose linkage or whose own digest is wrong. */
  datatype Verdict = Intact | BrokenLink(index: nat) | BadHash(index: nat)

  /** The predecessor digest the first transaction is linked to. */
  const Genesis: string := ""

  /** `calculate_hash` of a transaction whose fields are those of `e`. */
  function CalculateHash(h: Hasher, e: Entry): string
  {
    Commit(h, e.drug, e.timestamp, e.prevHash)
  }

  /** The stored digest is the recomputation over the current fields. */
  predicate SelfConsistent(h: Hasher, e: Entry)
  {
    e.hash == CalculateHash(h, e)
  }

  /** Entry `i` records the digest its predecessor holds now. */
  predicate Linked(es: seq<Entry>, i: nat)
    requires 1 <= i < |es|
  {
    es[i].prevHash == es[i - 1].hash
  }

  /** Both checks validation makes at index `i`. */
  predicate EntryOk(h: Hasher, es: seq<Entry>, i: nat)
    requires 1 <= i < |es|
  {
    Linked(es, i) && SelfConsistent(h, es[i])
  }

  /** What validation accepts: every index from 1 on passes both checks (index 0 is never examined). */
  predicate ChainValid(h: Hasher, es: seq<Entry>)
  {
    forall i :: 1 <= i < |es| ==> EntryOk(h, es, i)
  }

  /** The stronger invariant one might expect validation to check: valid, and every entry, index 0 included, self-consistent. */
  predicate Sound(h: Hasher, es: seq<Entry>)
  {
    ChainValid(h, es) && forall i :: 0 <= i < |es| ==> SelfConsistent(h, es[i])
  }

  /** The digest a new transaction is linked to: the tail's, or the empty sentinel. */
  function TailHash(es: seq<Entry>): string
  {
    if |es| == 0 then Genesis else es[|es| - 1].hash
  }

  /** A transaction as constructed: its digest is computed over its fields at construction. */
  function NewEntry(h: Hasher, drug: Drug, prevHash: string, now: Stamp): (e: Entry)
    ensures e.drug == drug && e.prevHash == prevHash && e.timestamp == now
    ensures SelfConsistent(h, e)
  {
    Entry(drug, prevHash, now, Commit(h, drug, now, prevHash))
  }

  /** `add_drug`: the ledger grows by one transaction linked to the old tail. */
  function Append(h: Hasher, es: seq<Entry>, drug: Drug, now: Stamp): (r: seq<Entry>)
    ensures |r| == |es| + 1 && r[..|es|] == es
    ensures r[|es|].drug == drug && r[|es|].timestamp == now
    ensures r[|es|].prevHash == if es == [] then "" else es[|es| - 1].hash
    ensures SelfConsistent(h, r[|es|])
  {
    es + [NewEntry(h, drug, TailHash(es), now)]
  }

  /** The first index at or after `from` whose drug is called `name`. */
  function FindFrom(es: seq<Entry>, name: string, from: nat): (r: Option<nat>)
    requires from <= |es|
    ensures r.Some? ==> from <= r.value < |es| && es[r.value].drug.name == name
    ensures r.Some? ==> forall j :: from <= j < r.value ==> es[j].drug.name != name
    ensures r.None? ==> forall j :: from <= j < |es| ==> es[j].drug.name != name
    decreases |es| - from
  {
    if from == |es| then None
    else if es[from].drug.name == name then Some(from)
    else FindFrom(es, name, from + 1)
  }

  /** The lookup shared by `update_drug_status` and `get_drug_info`: the first match in insertion order. */
  function FindFirst(es: seq<Entry>, name: string): (r: Option<nat>)
    ensures r.Some? ==> r.value < |es| && es[r.value].drug.name == name
    ensures r.Some? ==> forall j :: 0 <= j < r.value ==> es[j].drug.name != name
    ensures r.None? <==> forall j :: 0 <= j < |es| ==> es[j].drug.name != name
  {
    FindFrom(es, name, 0)
  }

  /** The entry with its status replaced and its own digest recomputed; the clock readings and the link stay. */
  function Restatus(h: Hasher, e: Entry, status: string): (r: Entry)
    ensures r.drug == e.drug.(status := status)
    ensures r.prevHash == e.prevHash && r.timestamp == e.timestamp
    ensures SelfConsistent(h, r)
  {
    var drug := e.drug.(status := status);
    Entry(drug, e.prevHash, e.timestamp, Commit(h, drug, e.timestamp, e.prevHash))
  }

  /** `update_drug_status`: only the first transaction whose drug is called `name` changes. */
  function UpdateStatus(h: Hasher, es: seq<Entry>, name: string, status: string): (r: seq<Entry>)
    ensures |r| == |es|
    ensures forall j :: 0 <= j < |es| && (FindFirst(es, name).None? || FindFirst(es, name).value != j) ==> r[j] == es[j]
    ensures FindFirst(es, name).Some? ==>
      var k := FindFirst(es, name).value;
      && r[k].drug == es[k].drug.(status := status)
      && r[k].prevHash == es[k].prevHash
      && r[k].timestamp == es[k].timestamp
      && SelfConsistent(h, r[k])
  {
    match FindFirst(es, name)
    case None => es
    case Some(k) => es[k := Restatus(h, es[k], status)]
  }

  /** `validate_chain` from index `from` on: the first failure, linkage checked before the digest. */
  function Scan(h: Hasher, es: seq<Entry>, from: nat): (v: Verdict)
    requires 1 <= from
    ensures v.Intact? <==> forall i :: from <= i < |es| ==> EntryOk(h, es, i)
    ensures !v.Intact? ==> from <= v.index < |es| && forall j :: from <= j < v.index ==> EntryOk(h, es, j)
    ensures v.BrokenLink? ==> !Linked(es, v.index)
    ensures v.BadHash? ==> Linked(es, v.index) && !SelfConsistent(h, es[v.index])
    decreases |es| - from
  {
    if from >= |es| then Intact
    else if !Linked(es, from) then assert !EntryOk(h, es, from); BrokenLink(from)
    else if !SelfConsistent(h, es[from]) then assert !EntryOk(h, es, from); BadHash(from)
    else Scan(h, es, from + 1)
  }

  /** `validate_chain`: intact exactly when the chain is valid, otherwise the smallest failing index from 1 on. */
  function Verify(h: Hasher, es: seq<Entry>): (v: Verdict)
    ensures v.Intact? <==> ChainValid(h, es)
    ensures !v.Intact? ==> 1 <= v.index < |es| && !EntryOk(h, es, v.index)
    ensures !v.Intact? ==> forall j :: 1 <= j < v.index ==> EntryOk(h, es, j)
    ensures v.BrokenLink? ==> !Linked(es, v.index)
    ensures v.BadHash? ==> Linked(es, v.index)
  {
    Scan(h, es, 1)
  }
}
