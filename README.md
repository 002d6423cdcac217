# Pharma supply chain ledger, modelled in Dafny

`Pharma.py` keeps a hash-linked ledger of drug transactions. Each `Transaction` holds a `Drug`, the digest of the
transaction before it (`prev_hash`, the empty string for the first one), its own clock reading, and a digest that
`calculate_hash` computes over the drug's name, manufacturer and status, the transaction's clock reading and
`prev_hash`. `PharmaSupplyChain` appends transactions (`add_drug`), rewrites the status of the first drug with a
given name and recomputes that one transaction's digest (`update_drug_status`), looks a drug up by name
(`get_drug_info`), and walks the chain from index 1, checking at each index first the link and then the digest (`validate_chain`).

The project has four modules:

- `Commitment` (commitment.dfy): the `Drug` record, the text that is hashed (`Payload`) and the digest over it
  (`Commit`). SHA-256 and the rendering of a clock reading are function values in a `Hasher` that the caller
  supplies. Nothing is assumed about them, not even injectivity. The fields are joined with no separator, and
  `FieldBoundaryCollision` proves that shifting characters across a field boundary gives the same digest.
- `Chain` (chain.dfy): the ledger as a sequence of `Entry` snapshots, plus the functions that specify each
  operation: `Append`, `FindFirst`, `UpdateStatus`, and `Verify`/`Scan` for validation. Validation returns a
  `Verdict`: `Intact` for True, `BrokenLink(i)` for the "Chain is invalid!" path, and `BadHash(i)` for the
  "Current transaction hash is invalid!" path.
- `ChainFacts` (chain_facts.dfy): what the operations guarantee about validation.
- `SupplyChain` (supply_chain.dfy): the classes `Transaction` and `PharmaSupplyChain`. They hold the list of
  transaction objects, which are edited in place, and use the same loops and early exits as Pharma.py. Each
  method is proved against the `Chain` functions on the ghost snapshot `entries`.

Clock readings (`time.time()`) are modelled as an opaque `Stamp` that the caller passes in.

Pharma.py differs in places from what one might expect of a tamper-evident ledger, and the model follows Pharma.py:

- One might expect a status update to refresh the drug's own timestamp; Pharma.py does not (lines 47-48). `Restatus` and `UpdateStatus` keep it unchanged.
- Validation never checks index 0's own digest. A ledger of zero or one transactions always passes
  (`ShortChainPasses`). Editing the first transaction's fields without changing its stored digest is never reported
  (`HeadIsNeverRechecked`). So editing entry 0's fields while keeping its stored digest is not caught, whether the ledger has one entry or several. Rewriting entry 0's stored digest is caught by the link check at index 1.
- A status update is not always accepted by a later validation. On a valid ledger, when the updated transaction has
  a successor and its digest changes, validation reports a broken link at the next index (`UpdateBreaksNextLink`). The ledger
  stays valid only when the updated transaction is the last one or its digest is unchanged
  (`UpdateKeepsChainValid`). `AddUpdateValidate` shows both outcomes on a ledger built with two additions.
- `add_drug` never raises an input error. No field is validated.

## Model

| member | source | states |
|---|---|---|
| `Commitment.CommitIgnoresDrugTimestamp` | Pharma.py:23-25 | the digest does not depend on the drug's own timestamp |
| `Commitment.FieldBoundaryCollision` | Pharma.py:24 | moving characters between name and manufacturer, or between manufacturer and status, leaves the digest unchanged for every hash function |
| `Commitment.ShiftedNamesCollide` | Pharma.py:24 | the drugs ("ab","c") and ("a","bc") with equal other fields get the same digest |
| `SupplyChain.Transaction.CalculateHash` | Pharma.py:23-25 | the digest of a transaction is the same whatever its drug's own timestamp is: only name, manufacturer, status, the transaction's clock reading and the link enter it |
| `Chain.NewEntry` | Pharma.py:17-21 | a newly built transaction keeps the given drug, link and clock reading, and its digest matches a recomputation |
| `Chain.Append` | Pharma.py:36-39 | appending grows the ledger by one and leaves every earlier entry unchanged; the new entry links to the old tail's digest (or "" on an empty ledger) and its digest matches a recomputation |
| `Chain.FindFirst` | Pharma.py:45-46 | returns the first index whose drug has the name, or None exactly when no drug has it |
| `Chain.Restatus` | Pharma.py:47-48 | only the status changes among the drug's fields; the link and clock reading stay; the new digest matches a recomputation |
| `Chain.UpdateStatus` | Pharma.py:44-51 | only the first entry with the name changes, and only its status and digest; with no match the ledger is unchanged |
| `Chain.Scan` | Pharma.py:63-71 | from a given index on: Intact exactly when every index passes; otherwise the smallest failing index, a broken link reported before a bad digest |
| `Chain.Verify` | Pharma.py:62-73 | Intact exactly when every index from 1 on is linked and self-consistent; otherwise the smallest failing index from 1 on |
| `ChainFacts.FirstFailureReported` | Pharma.py:63-71 | if index k is the first failure, validation reports k, as a broken link if the link fails and as a bad digest otherwise |
| `ChainFacts.Build` | Pharma.py:32-39 | the ledger made by a run of additions to a new ledger has one entry per addition, holding that addition's drug and clock reading |
| `ChainFacts.AppendKeepsSound` | Pharma.py:36-39 | appending to a ledger whose links and digests are all right keeps them all right |
| `ChainFacts.BuildIsSound` | Pharma.py:32-39 | any sequence of appends to an empty ledger gives a ledger that validation accepts, index 0 self-consistent too |
| `ChainFacts.ShortChainPasses` | Pharma.py:63 | a ledger of at most one transaction passes whatever it holds |
| `ChainFacts.SameChecksSameScan` | Pharma.py:63-71 | the verdict depends only on which links and digests hold from index 1 on |
| `ChainFacts.HeadIsNeverRechecked` | Pharma.py:63-66 | replacing the first transaction by any entry with the same stored digest does not change the verdict |
| `ChainFacts.TamperIsDetected` | Pharma.py:69-71 | on a valid ledger, editing the fields of the transaction at index i >= 1 without recomputing its digest is reported as a bad digest at i, provided the edit changes the digest |
| `ChainFacts.UpdateKeepsChainValid` | Pharma.py:44-48 | on a valid ledger, a status update keeps it valid when the updated transaction is last or its digest is unchanged |
| `ChainFacts.UpdateBreaksNextLink` | Pharma.py:47-66 | on a valid ledger, a status update that changes the digest of a transaction with a successor makes validation report a broken link at the next index |
| `SupplyChain.Transaction.constructor` | Pharma.py:17-21 | the new transaction holds the drug, link and clock reading, and its digest is calculate_hash over them |
| `SupplyChain.PharmaSupplyChain.constructor` | Pharma.py:32-33 | a new ledger is empty |
| `SupplyChain.PharmaSupplyChain.AddDrug` | Pharma.py:36-41 | the new snapshot is Append of the old one; the earlier transaction objects stay and one new object is appended; returns the new transaction's digest |
| `SupplyChain.PharmaSupplyChain.UpdateDrugStatus` | Pharma.py:44-51 | edits the first matching transaction in place, and the new snapshot is UpdateStatus of the old one; returns the index found, or None |
| `SupplyChain.PharmaSupplyChain.GetDrugInfo` | Pharma.py:54-59 | returns the drug of the first transaction with the name, or None when there is none; changes nothing |
| `SupplyChain.PharmaSupplyChain.ValidateChain` | Pharma.py:62-73 | the loop's verdict is Verify of the snapshot |
| `SupplyChain.AddAllThenValidate` | Pharma.py:93-110 | a caller that adds any drugs to a new ledger and then validates always gets Intact |
| `SupplyChain.AddUpdateValidate` | Pharma.py:93-110 | a caller that adds two drugs, updates the first one's status and validates: the update finds index 0, and validation reports a broken link at index 1 exactly when the first digest changed, Intact otherwise |

## Left out

- `display_menu` and `main` (Pharma.py:76-120) are an interactive input/print loop. Only their use of the ledger appears, in `AddAllThenValidate` (repeated additions, then validation) and `AddUpdateValidate` (two additions, a status update, then validation).
- Console output is not modelled. This covers every `print` in the methods and the `__str__` formatters. Outcomes are returned instead: a digest from `AddDrug`, an index or None from `UpdateDrugStatus`, a drug or None from `GetDrugInfo`, and a `Verdict` from `ValidateChain`.
- SHA-256 is not modelled. It is the `digest` function of a caller-supplied `Hasher`, and no collision resistance or avalanche behaviour is assumed. Tamper detection is therefore stated on the condition that the digest actually changes.
- `time.time()` float readings are not modelled. They are opaque `Stamp` parameters, and their text form is the `render` function of the `Hasher`.
- Aliasing between a caller's `Drug` object and the transaction holding it is not modelled. Each transaction owns its drug as a value, and a status update replaces that value in the transaction.
- The default `prev_hash=""` of `Transaction.__init__` (Pharma.py:17) is not modelled: the constructor always takes a link. `add_drug`, the only caller, always passes one.
