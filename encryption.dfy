/**
 * The cryptographic helpers the seed logic calls (SHA-256 hashing of the
 * plaintext server seed, and symmetric encryption of it at rest under the
 * process-wide seeds key). Their implementations are not part of this model:
 * they are carried as uninterpreted function values, and the one fact the
 * reveal path relies on, that decryption undoes encryption under the same key,
 * is a predicate that callers state as an assumption.
 */
module Encryption {

  datatype Primitives = Primitives(
    hash: string -> string,                 // hash_input_SHA256
    encrypt: (string, string) -> string,    // encrypt(plaintext, key)
    decrypt: (string, string) -> string     // decrypt(ciphertext, key)
  )
  {
    /** Decrypting with the key that encrypted gives back the plaintext. */
    ghost predicate DecryptInvertsEncrypt()
    {
      forall x: string, key: string :: decrypt(encrypt(x, key), key) == x
    }
  }
}
