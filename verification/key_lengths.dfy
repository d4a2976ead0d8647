/** The fixed byte lengths of sr25519 key material that the native backend exchanges. */
module KeyLengths {

  const SignatureLength: nat := 64
  const SecretKeyKeyLength: nat := 32
  const SecretKeyNonceLength: nat := 32
  /** A secret key is its 32-byte scalar followed by its 32-byte nonce. */
  const SecretKeyLength: nat := SecretKeyKeyLength + SecretKeyNonceLength
  const PublicKeyLength: nat := 32
  /** A key pair is a secret key followed by a public key. */
  const KeypairLength: nat := SecretKeyLength + PublicKeyLength
  const ChainCodeLength: nat := 32

  /** The derived lengths come to 64 and 96 bytes. */
  lemma DerivedLengths()
    ensures SecretKeyLength == 64
    ensures KeypairLength == 96
    ensures KeypairLength == SecretKeyKeyLength + SecretKeyNonceLength + PublicKeyLength
  {
  }
}
