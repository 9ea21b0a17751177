/** The post-quantum signature capability the chain signs with (Dilithium2),
    seen only through its interface: decoding of key and signature bytes,
    detached signing and verification. */
module Crypto {
  import opened Wrappers
  import opened Types

  /** The chain's key material, kept as encoded bytes (src/chain.rs:14-18). */
  datatype QuantumKeys = QuantumKeys(publicKey: Bytes, secretKey: Bytes)

  /** A signature scheme as a record of operations. Each decoder either accepts
      its bytes or fails with the library's message; `sign(secretKey, message)`
      is a detached signature and `verify(publicKey, message, signature)` its check. */
  datatype SignatureScheme = SignatureScheme(
    publicKeyFromBytes: Bytes -> Outcome<string>,
    secretKeyFromBytes: Bytes -> Outcome<string>,
    signatureFromBytes: Bytes -> Outcome<string>,
    sign: (Bytes, Bytes) -> Bytes,
    verify: (Bytes, Bytes, Bytes) -> bool)

  /** What the scheme promises of a keypair it generated: both keys decode, and
      every signature made with the secret key decodes and verifies against the
      public key for the message it was made over. */
  ghost predicate SignsSoundly(scheme: SignatureScheme, keys: QuantumKeys)
  {
    && scheme.publicKeyFromBytes(keys.publicKey).Pass?
    && scheme.secretKeyFromBytes(keys.secretKey).Pass?
    && forall m: Bytes ::
         && scheme.signatureFromBytes(scheme.sign(keys.secretKey, m)).Pass?
         && scheme.verify(keys.publicKey, m, scheme.sign(keys.secretKey, m))
  }

  /** An idealised unforgeability: a signature made over one message never
      verifies for a different one. */
  ghost predicate Unforgeable(scheme: SignatureScheme, keys: QuantumKeys)
  {
    forall m: Bytes, m': Bytes :: m != m' ==> !scheme.verify(keys.publicKey, m', scheme.sign(keys.secretKey, m))
  }
}
