/** The chain ledger engine (src/chain.rs): a single-owner store of signed
    records, keyed by record id, together with the keypair that signs them. */
module ChainEngine {
  import opened Wrappers
  import opened Types
  import opened Errors
  import opened Crypto

  const NoKeysMessage: string := "No quantum keys available"
  const InvalidAttestationMessage: string := "Invalid hardware attestation"
  /** The device identifier the simulated attestation back-end issues. */
  const SimulatedDeviceId: string := "SIMULATED-TPM-01"
  /** The naming convention the simulated back-end accepts. */
  const SimulatedDevicePrefix: string := "SIMULATED-TPM-"
  const PlaceholderAttestationData: Bytes := [0, 1, 2, 3]

  /** `k` is the key of a stored record whose timestamp is at least that of
      every stored record: a record `max_by_key(timestamp)` may pick. */
  predicate IsLatestKey(store: map<Uuid, Transaction>, k: Uuid)
  {
    k in store && forall j :: j in store ==> store[j].timestamp <= store[k].timestamp
  }

  /** `previous` is the link `create_transaction` records against `store`:
      nothing for an empty store, otherwise the id of some latest record. */
  ghost predicate LinksToLatest(store: map<Uuid, Transaction>, previous: Option<Uuid>)
  {
    if store == map[] then previous == None
    else exists k :: IsLatestKey(store, k) && previous == Some(store[k].id)
  }

  /** Every non-empty store has a latest record. */
  lemma {:induction false} LatestKeyExists(store: map<Uuid, Transaction>)
    requires store != map[]
    ensures exists k :: IsLatestKey(store, k)
    decreases |store|
  {
    var k0 :| k0 in store;
    var rest := store - {k0};
    assert rest.Keys == store.Keys - {k0};
    assert forall j :: j in store && j != k0 ==> j in rest && rest[j] == store[j];
    if rest == map[] {
      assert rest.Keys == {};
      assert IsLatestKey(store, k0);
    } else {
      LatestKeyExists(rest);
      var k1 :| IsLatestKey(rest, k1);
      if store[k0].timestamp <= store[k1].timestamp {
        assert IsLatestKey(store, k1);
      } else {
        assert IsLatestKey(store, k0);
      }
    }
  }

  /** Among 0 .. |keys| there is always an id not yet in use, so a fresh id
      can be drawn from a finite range. */
  lemma {:induction false} FreshIdExists(keys: set<Uuid>)
    ensures exists id: Uuid :: id <= |keys| && id !in keys
    decreases |keys|
  {
    if |keys| !in keys {
      assert |keys| <= |keys| && |keys| !in keys;
    } else {
      var rest := keys - {|keys|};
      FreshIdExists(rest);
      var id: Uuid :| id <= |rest| && id !in rest;
      assert id <= |keys| && id !in keys;
    }
  }

  /** Records stored under their own ids are pairwise distinct, so there are
      as many of them as there are keys. */
  lemma {:induction false} DistinctValuesCount(store: map<Uuid, Transaction>)
    requires forall k :: k in store ==> store[k].id == k
    ensures |store.Values| == |store|
    decreases |store|
  {
    if store != map[] {
      var k :| k in store;
      var rest := store - {k};
      assert rest.Keys == store.Keys - {k};
      DistinctValuesCount(rest);
      assert store.Values == rest.Values + {store[k]} by {
        forall v | v in store.Values ensures v in rest.Values + {store[k]} {
          var j :| j in store && store[j] == v;
          if j != k { assert rest[j] == v; }
        }
        forall v | v in rest.Values ensures v in store.Values {
          var j :| j in rest && rest[j] == v;
          assert store[j] == v;
        }
      }
      forall j | j in rest ensures rest[j] != store[k] {
        assert rest[j].id == j != k;
      }
      assert store[k] !in rest.Values;
    }
  }

  class Chain {
    const id: Uuid
    const name: string
    const createdAt: Timestamp
    /** The signature scheme the keypair belongs to (Dilithium2 in the source). */
    const scheme: SignatureScheme
    /** The keypair; `None` is representable although construction always sets it. */
    const keypair: Option<QuantumKeys>
    /** The record store, keyed by record id. */
    var transactions: map<Uuid, Transaction>

    /** Only `AddTransaction` inserts records, so every stored record sits under
        its own id and is one this chain created: signed with its secret key
        and carrying a simulated attestation. */
    ghost predicate Valid()
      reads this
    {
      forall k :: k in transactions ==> transactions[k].id == k && IssuedHere(transactions[k])
    }

    /** `tx` was produced by `CreateTransaction` on this chain. */
    ghost predicate IssuedHere(tx: Transaction)
    {
      && keypair.Some?
      && tx.signature == scheme.sign(keypair.value.secretKey, tx.data)
      && tx.hardwareAttestation.Some?
      && GenerateHardwareAttestation(tx.hardwareAttestation.value.timestamp)
         == Success(tx.hardwareAttestation.value)
    }

    /** `tx` is what `CreateTransaction(data, ...)` builds against `store` with
        the clock readings `attestedAt` (attestation) and `now` (record). */
    ghost predicate IsCreated(store: map<Uuid, Transaction>, data: Bytes, attestedAt: Timestamp,
                              now: Timestamp, tx: Transaction)
    {
      && keypair.Some?
      && tx.id !in store
      && tx.timestamp == now
      && tx.data == data
      && tx.signature == scheme.sign(keypair.value.secretKey, data)
      && LinksToLatest(store, tx.previousTransaction)
      && GenerateHardwareAttestation(attestedAt).Success?
      && tx.hardwareAttestation == Some(GenerateHardwareAttestation(attestedAt).value)
    }

    /** `Chain::new`: an empty store and the freshly generated keypair `keys`;
        `id` and `createdAt` are the chain's UUID and creation time. */
    constructor (name: string, id: Uuid, createdAt: Timestamp, scheme: SignatureScheme, keys: QuantumKeys)
      ensures Valid()
      ensures this.name == name && this.id == id && this.createdAt == createdAt
      ensures this.scheme == scheme && keypair == Some(keys)
      ensures transactions == map[]
    {
      this.id := id;
      this.name := name;
      this.createdAt := createdAt;
      this.scheme := scheme;
      this.keypair := Some(keys);
      transactions := map[];
    }

    /** `add_transaction`: fails with a `CryptoError` and leaves the store alone
        when the keypair is missing or its secret key does not decode; otherwise
        inserts exactly one record, under a fresh id, and returns that id. */
    method AddTransaction(data: Bytes, attestedAt: Timestamp, now: Timestamp)
      returns (r: Result<Uuid, LedgerError>)
      requires Valid()
      modifies this
      ensures Valid()
      ensures keypair.None? ==> r == Failure(CryptoError(NoKeysMessage))
      ensures keypair.Some? && scheme.secretKeyFromBytes(keypair.value.secretKey).Fail? ==>
                r == Failure(CryptoError(scheme.secretKeyFromBytes(keypair.value.secretKey).error))
      ensures r.Success? <==> keypair.Some? && scheme.secretKeyFromBytes(keypair.value.secretKey).Pass?
      ensures r.Failure? ==> transactions == old(transactions)
      ensures r.Success? ==>
                && r.value !in old(transactions)
                && r.value in transactions
                && transactions == old(transactions)[r.value := transactions[r.value]]
                && |transactions| == |old(transactions)| + 1
                && IsCreated(old(transactions), data, attestedAt, now, transactions[r.value])
      ensures r.Success? ==>
                && GetTransaction(r.value).Some?
                && GetTransaction(r.value).value.id == r.value
                && GetTransaction(r.value).value.data == data
    {
      if keypair.None? {
        return Failure(CryptoError(NoKeysMessage));
      }
      var created := CreateTransaction(data, keypair.value, attestedAt, now);
      if created.Failure? {
        return Failure(created.error);
      }
      var tx := created.value;
      transactions := transactions[tx.id := tx];
      r := Success(tx.id);
    }

    /** `create_transaction`: decodes the secret key (a failure is a
        `CryptoError`), signs `data`, links to a latest stored record, attaches a
        simulated attestation and gives the record an id not yet in the store.
        It reads the store and changes nothing. */
    method CreateTransaction(data: Bytes, keys: QuantumKeys, attestedAt: Timestamp, now: Timestamp)
      returns (r: Result<Transaction, LedgerError>)
      requires Valid() && keypair == Some(keys)
      ensures r.Success? <==> scheme.secretKeyFromBytes(keys.secretKey).Pass?
      ensures r.Failure? ==> r.error == CryptoError(scheme.secretKeyFromBytes(keys.secretKey).error)
      ensures r.Success? ==> IsCreated(transactions, data, attestedAt, now, r.value)
      ensures r.Success? && transactions != map[] ==>
                r.value.previousTransaction.Some? && r.value.previousTransaction.value in transactions
    {
      var decoded := scheme.secretKeyFromBytes(keys.secretKey);
      if decoded.Fail? {
        return Failure(CryptoError(decoded.error));
      }
      var signature := scheme.sign(keys.secretKey, data);

      var previous: Option<Uuid>;
      if transactions == map[] {
        previous := None;
      } else {
        LatestKeyExists(transactions);
        var latest :| latest in transactions && IsLatestKey(transactions, latest);
        previous := Some(transactions[latest].id);
      }

      // The simulated attestation back-end never fails.
      var attestation := GenerateHardwareAttestation(attestedAt).value;

      FreshIdExists(transactions.Keys);
      var newId: Uuid :| newId <= |transactions.Keys| && newId !in transactions.Keys;
      r := Success(Transaction(newId, now, data, signature, previous, Some(attestation)));
    }

    /** `verify_transaction`: a signature that does not verify is the ordinary
        answer `false`; a verified record with an attestation from an
        unrecognised device is a `HardwareError`; missing or undecodable key or
        signature material is a `CryptoError`. */
    function VerifyTransaction(tx: Transaction): (r: Result<bool, LedgerError>)
      ensures keypair.None? ==> r == Failure(CryptoError(NoKeysMessage))
      ensures keypair.Some? && scheme.publicKeyFromBytes(keypair.value.publicKey).Fail? ==>
                r == Failure(CryptoError(scheme.publicKeyFromBytes(keypair.value.publicKey).error))
      ensures keypair.Some? && scheme.publicKeyFromBytes(keypair.value.publicKey).Pass?
              && scheme.signatureFromBytes(tx.signature).Fail? ==>
                r == Failure(CryptoError(scheme.signatureFromBytes(tx.signature).error))
      ensures r == Success(false) <==> SignatureChecked(tx) && !SignatureMatches(tx)
      ensures r == Success(true) <==>
                && SignatureChecked(tx) && SignatureMatches(tx)
                && (tx.hardwareAttestation.None? || SimulatedDevicePrefix <= tx.hardwareAttestation.value.deviceId)
      ensures r.Failure? && r.error.HardwareError? <==>
                && SignatureChecked(tx) && SignatureMatches(tx)
                && tx.hardwareAttestation.Some? && !(SimulatedDevicePrefix <= tx.hardwareAttestation.value.deviceId)
      ensures r.Failure? && r.error.HardwareError? ==> r.error == HardwareError(InvalidAttestationMessage)
      ensures r.Failure? && !r.error.HardwareError? ==> r.error.CryptoError? && !SignatureChecked(tx)
    {
      if keypair.None? then Failure(CryptoError(NoKeysMessage))
      else
        var keys := keypair.value;
        var publicKey := scheme.publicKeyFromBytes(keys.publicKey);
        if publicKey.Fail? then Failure(CryptoError(publicKey.error))
        else
          var signature := scheme.signatureFromBytes(tx.signature);
          if signature.Fail? then Failure(CryptoError(signature.error))
          else if !scheme.verify(keys.publicKey, tx.data, tx.signature) then Success(false)
          else
            match tx.hardwareAttestation
            case None => Success(true)
            case Some(attestation) =>
              var checked := VerifyHardwareAttestation(attestation);
              if checked.Fail? then Failure(checked.error) else Success(true)
    }

    /** The signature check can run: the keypair is present and both the
        public key and the record's signature decode. */
    predicate SignatureChecked(tx: Transaction)
    {
      && keypair.Some?
      && scheme.publicKeyFromBytes(keypair.value.publicKey).Pass?
      && scheme.signatureFromBytes(tx.signature).Pass?
    }

    /** The record's signature verifies over its data against the chain's public key. */
    predicate SignatureMatches(tx: Transaction)
      requires keypair.Some?
    {
      scheme.verify(keypair.value.publicKey, tx.data, tx.signature)
    }

    /** `get_transaction`: the record stored under `id`, if any. */
    function GetTransaction(id: Uuid): (r: Option<Transaction>)
      reads this
      ensures r.Some? <==> id in transactions
      ensures r.Some? ==> r.value == transactions[id]
      ensures Valid() && r.Some? ==> r.value.id == id && IssuedHere(r.value)
    {
      if id in transactions then Some(transactions[id]) else None
    }

    /** `get_all_transactions`: every stored record, in no particular order. */
    function GetAllTransactions(): (r: set<Transaction>)
      reads this
      ensures forall k :: k in transactions ==> transactions[k] in r
      ensures Valid() ==> forall tx :: tx in r ==> tx.id in transactions && transactions[tx.id] == tx
    {
      transactions.Values
    }

    /** `get_transactions_since`: the stored records stamped at or after `since`. */
    function GetTransactionsSince(since: Timestamp): (r: set<Transaction>)
      reads this
      ensures r <= GetAllTransactions()
      ensures forall tx :: tx in GetAllTransactions() ==> (tx in r <==> since <= tx.timestamp)
    {
      set tx | tx in transactions.Values && since <= tx.timestamp
    }

    /** `generate_hardware_attestation`: the simulated device's token, stamped
        `now`; it always succeeds and always passes `VerifyHardwareAttestation`. */
    static function GenerateHardwareAttestation(now: Timestamp): (r: Result<HardwareAttestation, LedgerError>)
      ensures r.Success?
      ensures r.value.timestamp == now
      ensures r.value.deviceId == SimulatedDeviceId && |r.value.attestationData| > 0
      ensures VerifyHardwareAttestation(r.value) == Pass
    {
      Success(HardwareAttestation(now, SimulatedDeviceId, PlaceholderAttestationData))
    }

    /** `verify_hardware_attestation`: accepts exactly the tokens whose device
        id follows the simulated-device naming convention. */
    static function VerifyHardwareAttestation(attestation: HardwareAttestation): (r: Outcome<LedgerError>)
      ensures r.Pass? <==> SimulatedDevicePrefix <= attestation.deviceId
      ensures r.Fail? ==> r.error == HardwareError(InvalidAttestationMessage)
    {
      if SimulatedDevicePrefix <= attestation.deviceId then Pass
      else Fail(HardwareError(InvalidAttestationMessage))
    }
  }

  /** The store of a valid chain returns one record per key, and no two of
      them share an id: after N successful adds there are N records. */
  lemma AllTransactionsCount(c: Chain)
    requires c.Valid()
    ensures |c.GetAllTransactions()| == |c.transactions|
    ensures forall t1, t2 :: t1 in c.GetAllTransactions() && t2 in c.GetAllTransactions() && t1.id == t2.id ==> t1 == t2
  {
    DistinctValuesCount(c.transactions);
  }

  /** The link recorded by a create is either nothing (empty store) or the id of
      a stored record whose timestamp is at least every stored timestamp: it
      turns the `max_by_key` choice of `LinksToLatest` into that direct form. */
  lemma LinkIsLatest(store: map<Uuid, Transaction>, previous: Option<Uuid>)
    requires forall k :: k in store ==> store[k].id == k
    requires LinksToLatest(store, previous)
    ensures previous.None? <==> store == map[]
    ensures previous.Some? ==>
              previous.value in store
              && forall k :: k in store ==> store[k].timestamp <= store[previous.value].timestamp
  {
  }

  /** Under a sound keypair, every record the chain stores verifies. */
  lemma StoredRecordVerifies(c: Chain, id: Uuid)
    requires c.Valid() && id in c.transactions
    requires c.keypair.Some? && SignsSoundly(c.scheme, c.keypair.value)
    ensures c.VerifyTransaction(c.transactions[id]) == Success(true)
  {
  }

  /** Changing the payload of a stored record makes its signature fail, which
      `VerifyTransaction` reports as `false`, not as an error. */
  lemma TamperedPayloadRejected(c: Chain, id: Uuid, data: Bytes)
    requires c.Valid() && id in c.transactions && data != c.transactions[id].data
    requires c.keypair.Some? && SignsSoundly(c.scheme, c.keypair.value) && Unforgeable(c.scheme, c.keypair.value)
    ensures c.VerifyTransaction(c.transactions[id].(data := data)) == Success(false)
  {
  }

  /** Renaming the attesting device of a stored record to one outside the
      simulated naming convention leaves the signature valid but makes
      `VerifyTransaction` fail with a `HardwareError`. */
  lemma TamperedDeviceRejected(c: Chain, id: Uuid, device: string)
    requires c.Valid() && id in c.transactions && !(SimulatedDevicePrefix <= device)
    requires c.keypair.Some? && SignsSoundly(c.scheme, c.keypair.value)
    ensures c.transactions[id].hardwareAttestation.Some?
    ensures var tx := c.transactions[id];
            var tampered := tx.(hardwareAttestation := Some(tx.hardwareAttestation.value.(deviceId := device)));
            c.SignatureMatches(tampered)
            && c.VerifyTransaction(tampered) == Failure(HardwareError(InvalidAttestationMessage))
  {
  }

  /** A cutoff no later than any stored timestamp selects every record. */
  lemma SinceBeforeAllIsAll(c: Chain, since: Timestamp)
    requires forall k :: k in c.transactions ==> since <= c.transactions[k].timestamp
    ensures c.GetTransactionsSince(since) == c.GetAllTransactions()
  {
  }

  /** A cutoff later than every stored timestamp selects nothing. */
  lemma SinceAfterAllIsEmpty(c: Chain, since: Timestamp)
    requires forall k :: k in c.transactions ==> c.transactions[k].timestamp < since
    ensures c.GetTransactionsSince(since) == {}
  {
  }

  /** A later cutoff never selects more records. */
  lemma SinceIsAntitone(c: Chain, earlier: Timestamp, later: Timestamp)
    requires earlier <= later
    ensures c.GetTransactionsSince(later) <= c.GetTransactionsSince(earlier)
  {
  }
}
