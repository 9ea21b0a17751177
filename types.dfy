/** The record value types of the ledger (src/types.rs). */
module Types {
  import opened Wrappers

  newtype byte = x: int | 0 <= x < 256

  type Bytes = seq<byte>

  /** A UUID, abstracted to a natural number: only equality and freshness matter. */
  type Uuid = nat

  /** A `DateTime<Utc>`, abstracted to an integer instant; only its order matters. */
  type Timestamp = int

  /** Evidence issued by the (simulated) hardware security module. */
  datatype HardwareAttestation = HardwareAttestation(
    timestamp: Timestamp,
    deviceId: string,
    attestationData: Bytes)

  /** One signed record of the ledger. */
  datatype Transaction = Transaction(
    id: Uuid,
    timestamp: Timestamp,
    data: Bytes,
    signature: Bytes,
    previousTransaction: Option<Uuid>,
    hardwareAttestation: Option<HardwareAttestation>)
}
