/**
 * The cryptographic collaborators of the registry client, `CryptoUtils`.
 * Their algorithms live outside this model: each is an uninterpreted
 * function, fallible where the original returns a promise.
 */
module Crypto {
  import opened Values

  newtype byte = x: int | 0 <= x < 256

  /** A signing key pair; only the public half is read directly by the client. */
  datatype Keypair = Keypair(signPk: seq<byte>, signSk: seq<byte>)

  /**
   * `CryptoUtils.sign(message, keypair)`, `CryptoUtils.util.hash_sha256(text)`
   * and `CryptoUtils.util.encode_base58(bytes)`.
   */
  datatype CryptoUtils = CryptoUtils(
    sign: (Value, Keypair) -> Result<Value, Value>,
    hashSha256: string -> Result<seq<byte>, Value>,
    encodeBase58: seq<byte> -> string)
}
