# Tenzro ledger chain engine in Dafny

This project models the chain ledger engine of the Tenzro ledger (`src/chain.rs`). A `Chain` is a single-owner store of signed records ("transactions"). Records are kept in a map keyed by record id, together with the post-quantum keypair that signs them.

- `AddTransaction` fails with a `CryptoError` when the keypair is missing or its secret key does not decode. Otherwise it signs the payload, links the new record to a stored record with the greatest timestamp, attaches a simulated hardware attestation and inserts the record under a fresh id.
- `VerifyTransaction` has four outcomes:
  - a signature that does not verify is the ordinary answer `false`;
  - a verified record whose attestation comes from a device outside the `SIMULATED-TPM-` naming convention fails with a `HardwareError`;
  - a missing keypair, or a public key or signature that does not decode, fails with a `CryptoError` carrying the first failing decoder's message, before any signature check;
  - everything else verifies.
- Three read-only queries return one record by id, all records, and the records stamped at or after a cutoff.

Modules, one per source file or capability:

- `Wrappers` (`wrappers.dfy`): `Option`, `Result` and `Outcome`. `Outcome` stands for Rust's `Result<(), E>`.
- `Types` (`types.dfy`, from `src/types.rs`): `Transaction` and `HardwareAttestation`. Bytes are `seq<byte>`, a UUID is a `nat` and a `DateTime<Utc>` is an `int`.
- `Errors` (`errors.dfy`, from `src/error.rs`): `LedgerError` with `TransactionError`, `CryptoError` and `HardwareError`, each carrying its message.
- `Crypto` (`crypto.dfy`): the Dilithium2 capability as a `SignatureScheme` record of operations.
  - The operations are the three `from_bytes` decoders, detached signing and verification.
  - `QuantumKeys` (`src/chain.rs:14-18`) holds the encoded keypair.
  - `SignsSoundly` states the scheme's correctness promise: both keys decode, and a signature made with the secret key decodes and verifies for the same message.
  - `Unforgeable` states that a signature never verifies for a different message.
  - These are hypotheses of the lemmas that need them. They are not facts the model assumes everywhere.
- `ChainEngine` (`chain.dfy`, from `src/chain.rs`): the class `Chain`.
  - The mutable field is `transactions: map<Uuid, Transaction>`.
  - The constant fields are `id`, `name`, `createdAt`, `scheme` and `keypair: Option<QuantumKeys>`.
  - `Valid()` is the store invariant: every record sits under its own id and is one this chain issued, meaning it is signed with the chain's secret key and carries the simulated attestation.
- `ChainScenarios` (`scenarios.dfy`): the unit tests of `src/chain.rs` replayed as client methods on a fresh chain, with the payloads generalised to arbitrary bytes.

Nondeterminism in the source is modelled as follows:

- **`Uuid::new_v4`** is a choice (`:|`) of an id that is not yet a key of the store.
- **`max_by_key(timestamp)`** is a choice of some key whose timestamp is at least every stored timestamp. Which of several equal maxima is taken is left open.
- **`Utc::now`** is two clock parameters of `AddTransaction`: `attestedAt` for the attestation and `now` for the record. A clock that never runs backwards appears only where a property needs it, as a `requires` of `ChainScenarios.TransactionRetrieval`.
- **`Chain::new`** takes its own `Uuid::new_v4()` and `Utc::now()` readings as the constructor's `id` and `createdAt` parameters.
- **`dilithium2::keypair()`** is the `keys` argument of the constructor.

`get_transaction`, `get_all_transactions`, `get_transactions_since` and `verify_transaction` borrow the chain immutably, so they are functions over the chain's state. They change nothing, and repeated calls with the same arguments return the same value by construction.

## Model

| member | source | states |
|---|---|---|
| ChainEngine.Chain.constructor | src/chain.rs:37-54 | A new chain has an empty store, holds the generated keypair, keeps its name, id and creation time, and satisfies the store invariant. |
| ChainEngine.Chain.AddTransaction | src/chain.rs:57-72 | Missing keypair gives `CryptoError("No quantum keys available")`. A secret-key decode failure gives `CryptoError` with the decoder's message. It succeeds exactly when the keypair is present and decodes. On failure the store is unchanged. On success exactly one key is added, and it was not present before. Every older record is unchanged, the store grows by one, and the new record is the created one. `GetTransaction` of the returned id yields a record with that id and the given data. The store invariant is preserved. |
| ChainEngine.Chain.CreateTransaction | src/chain.rs:74-97 | Succeeds exactly when the secret key decodes. Otherwise it fails with that `CryptoError`. The record has a fresh id, the clock reading as timestamp, the payload, and the detached signature of the payload under the chain's secret key. Its link is nothing for an empty store, otherwise the id of a latest stored record, which is a key of the store. Its attestation is the simulated one. |
| ChainEngine.Chain.VerifyTransaction | src/chain.rs:100-130 | Missing keypair gives `CryptoError("No quantum keys available")`. An undecodable public key gives `CryptoError` with that decoder's message; otherwise an undecodable signature gives `CryptoError` with the signature decoder's message. A `HardwareError` always carries "Invalid hardware attestation". `Success(false)` exactly when the key and signature decode and the signature fails, whatever the attestation. `Success(true)` exactly when the signature verifies and the attestation is absent or from a recognised device. `HardwareError` exactly when the signature verifies and the attestation's device id lacks the prefix. Any other failure is a `CryptoError` raised before the signature check. |
| ChainEngine.Chain.GetTransaction | src/chain.rs:133-135 | Returns a record exactly when the id is stored, and that record. On a valid chain, the record carries the id it was looked up by and was issued by this chain. |
| ChainEngine.Chain.GetAllTransactions | src/chain.rs:138-140 | Every stored record is returned. On a valid chain, every returned record is retrievable under its own id. |
| ChainEngine.Chain.GetTransactionsSince | src/chain.rs:143-147 | A subset of all records, holding exactly those whose timestamp is at or after the cutoff (inclusive bound). |
| ChainEngine.Chain.GenerateHardwareAttestation | src/chain.rs:150-158 | Always succeeds. The token is stamped with the given clock reading, names device `SIMULATED-TPM-01`, has non-empty data and passes `VerifyHardwareAttestation`. |
| ChainEngine.Chain.VerifyHardwareAttestation | src/chain.rs:160-170 | Passes exactly when the device id starts with `SIMULATED-TPM-`. Otherwise it fails with `HardwareError("Invalid hardware attestation")`. |
| ChainEngine.LatestKeyExists | src/chain.rs:82-84 | Every non-empty store has a key whose record's timestamp is at least every stored timestamp, so the `max_by_key` choice always exists. |
| ChainEngine.LinkIsLatest | src/chain.rs:82-84 | On a store whose records sit under their own ids, the recorded link is absent exactly when the store is empty. Otherwise it is a stored id whose timestamp is at least every stored timestamp. |
| ChainEngine.FreshIdExists | src/chain.rs:90 | A finite set of ids always leaves an unused id, so a fresh record id always exists. |
| ChainEngine.DistinctValuesCount | src/chain.rs:68 | A store whose records sit under their own ids holds as many distinct records as keys. |
| ChainEngine.AllTransactionsCount | src/chain.rs:138-140 | On a valid chain, `GetAllTransactions` has one record per stored key, so N successful adds give N records, and no two of them share an id. |
| ChainEngine.StoredRecordVerifies | src/chain.rs:113-129 | Under a sound keypair, every record in a valid chain's store verifies to `Success(true)`. |
| ChainEngine.TamperedPayloadRejected | src/chain.rs:113-122 | Under a sound, unforgeable keypair, a stored record with its payload changed verifies to `Success(false)`, not to an error. |
| ChainEngine.TamperedDeviceRejected | src/chain.rs:124-127 | Take a stored record and rename its attesting device to one outside the naming convention. The signature still matches, and verification fails with `HardwareError("Invalid hardware attestation")`. |
| ChainEngine.SinceBeforeAllIsAll | src/chain.rs:143-147 | A cutoff no later than every stored timestamp selects all records. |
| ChainEngine.SinceAfterAllIsEmpty | src/chain.rs:143-147 | A cutoff later than every stored timestamp selects nothing. |
| ChainEngine.SinceIsAntitone | src/chain.rs:143-147 | A later cutoff selects a subset of what an earlier one selects. |
| ChainScenarios.ChainCreation | src/chain.rs:178-183 | A new chain keeps its name and holds a keypair. |
| ChainScenarios.TransactionOperations | src/chain.rs:185-200 | Under a sound keypair, the record added to a new chain is found by the returned id, holds the payload and verifies to `Success(true)`. |
| ChainScenarios.TransactionSequence | src/chain.rs:202-215 | Two adds on a new chain return distinct ids, and the second record links to the first. |
| ChainScenarios.TransactionRetrieval | src/chain.rs:217-242 | With a clock that never runs backwards, two adds after a cutoff give two records in all, two since the cutoff, and each found with its own payload. |
| ChainScenarios.HardwareAttestationPresent | src/chain.rs:244-262 | An added record carries an attestation from a recognised device with non-empty data. |

## Left out

- `src/main.rs`: the command-line parser, the interactive loop and all printing are input and output around the engine.
- `src/lib.rs`: it holds only re-exports and the build-time `VERSION` string.
- Dilithium2 internals and the byte encodings of keys and signatures are not modelled. The scheme is a record of opaque operations, and its correctness and unforgeability are lemma hypotheses rather than facts.
- The `log` macros, the `serde`, `Clone` and `Debug` derives, and the `Display` texts of `LedgerError` are library behaviour and are not modelled.
- UUIDs are natural numbers and `new_v4` is a choice of an unused id. The choice is drawn from `0 .. |store|` only so that it is executable. The 128-bit width and the randomness are not modelled, and neither is the overwrite a colliding UUID would cause in `HashMap::insert`.
- Timestamps are integers supplied as parameters. Clock resolution and wall-clock jumps are not modelled.
- `HashMap` iteration order is not modelled: `GetAllTransactions` and `GetTransactionsSince` return sets. This is exact because records in a valid store are pairwise distinct (`AllTransactionsCount`).
- Concurrency is not modelled. The engine takes `&mut self` for `add_transaction`, so one owner mutates it at a time.
- ChainEngine.Chain.CreateTransaction: it also requires the store invariant `Valid()`, which its only caller `AddTransaction` keeps. The source states no such demand, but no reachable chain violates it.
- ChainEngine.Chain.GenerateHardwareAttestation: it keeps the source's `Result` type, but it never fails. `CreateTransaction` therefore takes its value directly instead of modelling an error path that cannot be taken.
