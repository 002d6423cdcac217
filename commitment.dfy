/**
 * The records of the supply chain and the commitment (digest) that binds a
 * transaction to its drug, its own timestamp and its predecessor.
 *
 * Pharma.py hashes the text `name + manufacturer + status + str(timestamp)
 * + prev_hash` with SHA-256. Neither SHA-256 nor the rendering of a clock
 * reading is modelled: both are function values supplied by the caller, so
 * nothing is assumed of them beyond determinism (in particular, no
 * injectivity and no collision resistance).
 */
module Commitment {

  /** A reading of the wall clock; only equality and its rendering matter. */
  type Stamp = int

  /** The foreign primitives the commitment is built from. */
  datatype Hasher = Hasher(
    digest: string -> string,  // SHA-256 over the encoded text, as a hex digest
    render: Stamp -> string    // the text form of a clock reading
  )

  /**
   * A drug unit. `timestamp` is the clock reading taken when the drug record
   * was made; it is not part of any commitment.
   */
  datatype Drug = Drug(name: string, manufacturer: string, timestamp: Stamp, status: string)

  /** The text that is hashed: the fields written one after another, with no separator. */
  function Payload(h: Hasher, drug: Drug, timestamp: Stamp, prevHash: string): string
  {
    drug.name + drug.manufacturer + drug.status + h.render(timestamp) + prevHash
  }

  /** The commitment over a transaction's current fields. */
  function Commit(h: Hasher, drug: Drug, timestamp: Stamp, prevHash: string): string
  {
    h.digest(Payload(h, drug, timestamp, prevHash))
  }

  /** The drug's own timestamp never enters the commitment. */
  lemma CommitIgnoresDrugTimestamp(h: Hasher, drug: Drug, other: Stamp, timestamp: Stamp, prevHash: string)
    ensures Commit(h, drug.(timestamp := other), timestamp, prevHash) == Commit(h, drug, timestamp, prevHash)
  {
  }

  /**
   * The commitment is not injective in the drug's fields: moving the end of
   * the name onto the front of the manufacturer (or the end of the
   * manufacturer onto the front of the status) yields the same digest,
   * whatever the hash function is.
   */
  lemma FieldBoundaryCollision(h: Hasher, a: string, b: string, c: string, d: string,
                               drugStamp: Stamp, timestamp: Stamp, prevHash: string)
    ensures Commit(h, Drug(a + b, c, drugStamp, d), timestamp, prevHash)
         == Commit(h, Drug(a, b + c, drugStamp, d), timestamp, prevHash)
    ensures Commit(h, Drug(a, b + c, drugStamp, d), timestamp, prevHash)
         == Commit(h, Drug(a, b, drugStamp, c + d), timestamp, prevHash)
  {
    var tail := h.render(timestamp) + prevHash;
    assert Payload(h, Drug(a + b, c, drugStamp, d), timestamp, prevHash) == a + b + c + d + tail;
    assert Payload(h, Drug(a, b + c, drugStamp, d), timestamp, prevHash) == a + b + c + d + tail;
    assert Payload(h, Drug(a, b, drugStamp, c + d), timestamp, prevHash) == a + b + c + d + tail;
  }

  /** The concrete collision of names "ab"/"a" with manufacturers "c"/"bc". */
  lemma ShiftedNamesCollide(h: Hasher, status: string, drugStamp: Stamp, timestamp: Stamp, prevHash: string)
    ensures Commit(h, Drug("ab", "c", drugStamp, status), timestamp, prevHash)
         == Commit(h, Drug("a", "bc", drugStamp, status), timestamp, prevHash)
  {
    FieldBoundaryCollision(h, "a", "b", "c", status, drugStamp, timestamp, prevHash);
    assert "a" + "b" == "ab";
    assert "b" + "c" == "bc";
  }
}
