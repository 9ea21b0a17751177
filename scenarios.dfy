/** Clients of the chain engine that replay the unit tests of src/chain.rs on a
    freshly constructed chain, with the payloads generalised to any bytes. The
    keypair generator, the UUID generator and the clock are parameters. */
module ChainScenarios {
  import opened Wrappers
  import opened Types
  import opened Errors
  import opened Crypto
  import opened ChainEngine

  /** A new chain keeps its name and holds a keypair. */
  method ChainCreation(name: string, chainId: Uuid, createdAt: Timestamp, scheme: SignatureScheme, keys: QuantumKeys)
    returns (chainName: string, hasKeys: bool)
    ensures chainName == name && hasKeys
  {
    var chain := new Chain(name, chainId, createdAt, scheme, keys);
    chainName := chain.name;
    hasKeys := chain.keypair.Some?;
  }

  /** An added record can be looked up by the returned id, holds the payload
      and verifies. */
  method TransactionOperations(data: Bytes, chainId: Uuid, createdAt: Timestamp, scheme: SignatureScheme,
                               keys: QuantumKeys, attestedAt: Timestamp, now: Timestamp)
    returns (stored: Option<Transaction>, verified: Result<bool, LedgerError>)
    requires SignsSoundly(scheme, keys)
    ensures stored.Some? && stored.value.data == data
    ensures verified == Success(true)
  {
    var chain := new Chain("Test Chain", chainId, createdAt, scheme, keys);
    var added := chain.AddTransaction(data, attestedAt, now);
    stored := chain.GetTransaction(added.value);
    StoredRecordVerifies(chain, added.value);
    verified := chain.VerifyTransaction(stored.value);
  }

  /** The second record added to a new chain links to the first. */
  method TransactionSequence(first: Bytes, second: Bytes, chainId: Uuid, createdAt: Timestamp,
                             scheme: SignatureScheme, keys: QuantumKeys,
                             attested1: Timestamp, now1: Timestamp, attested2: Timestamp, now2: Timestamp)
    returns (firstId: Uuid, secondId: Uuid, previous: Option<Uuid>)
    requires scheme.secretKeyFromBytes(keys.secretKey).Pass?
    ensures firstId != secondId
    ensures previous == Some(firstId)
  {
    var chain := new Chain("Test Chain", chainId, createdAt, scheme, keys);
    var added1 := chain.AddTransaction(first, attested1, now1);
    firstId := added1.value;
    var added2 := chain.AddTransaction(second, attested2, now2);
    secondId := added2.value;
    var tx2 := chain.GetTransaction(secondId);
    previous := tx2.value.previousTransaction;
    LinkIsLatest(map[firstId := chain.transactions[firstId]], previous);
  }

  /** With a clock that never runs backwards, two records added after the
      reading `cutoff` are both listed, both selected since `cutoff`, and each
      is found under its id with its own payload. */
  method TransactionRetrieval(older: Bytes, newer: Bytes, chainId: Uuid, createdAt: Timestamp,
                              scheme: SignatureScheme, keys: QuantumKeys, cutoff: Timestamp,
                              attested1: Timestamp, now1: Timestamp, attested2: Timestamp, now2: Timestamp)
    returns (allCount: nat, sinceCount: nat, olderRecord: Option<Transaction>, newerRecord: Option<Transaction>)
    requires scheme.secretKeyFromBytes(keys.secretKey).Pass?
    requires cutoff <= attested1 <= now1 <= attested2 <= now2
    ensures allCount == 2 && sinceCount == 2
    ensures olderRecord.Some? && olderRecord.value.data == older
    ensures newerRecord.Some? && newerRecord.value.data == newer
  {
    var chain := new Chain("Test Chain", chainId, createdAt, scheme, keys);
    var added1 := chain.AddTransaction(older, attested1, now1);
    var added2 := chain.AddTransaction(newer, attested2, now2);
    AllTransactionsCount(chain);
    allCount := |chain.GetAllTransactions()|;
    SinceBeforeAllIsAll(chain, cutoff);
    sinceCount := |chain.GetTransactionsSince(cutoff)|;
    olderRecord := chain.GetTransaction(added1.value);
    newerRecord := chain.GetTransaction(added2.value);
  }

  /** An added record carries a non-empty attestation from a device the
      simulated back-end recognises. */
  method HardwareAttestationPresent(data: Bytes, chainId: Uuid, createdAt: Timestamp, scheme: SignatureScheme,
                                    keys: QuantumKeys, attestedAt: Timestamp, now: Timestamp)
    returns (attestation: Option<HardwareAttestation>)
    requires scheme.secretKeyFromBytes(keys.secretKey).Pass?
    ensures attestation.Some?
    ensures SimulatedDevicePrefix <= attestation.value.deviceId
    ensures |attestation.value.attestationData| > 0
  {
    var chain := new Chain("Test Chain", chainId, createdAt, scheme, keys);
    var added := chain.AddTransaction(data, attestedAt, now);
    var tx := chain.GetTransaction(added.value);
    attestation := tx.value.hardwareAttestation;
  }
}
