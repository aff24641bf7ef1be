/** A symbolic stand-in for the Fernet credential codec: authenticated
    symmetric encryption under one process-wide key. Tokens are values that
    remember the key, the random nonce (Fernet's IV and timestamp) and the
    plaintext, so that the properties the bridge relies on can be stated
    and proved without modelling AES or HMAC. */
module Codec {
  import opened Wrappers

  newtype byte = x: int | 0 <= x < 256

  /** The contents of the key file (a Fernet key). */
  type Key = seq<byte>

  /** Text stored where a ciphertext is expected: either a token the codec
      produced, or any other string (hand-edited, truncated, corrupted). */
  datatype Cipher = Token(key: Key, nonce: nat, plain: string) | Forged(raw: string)

  /** `Fernet(key).decrypt(token)`: only a token made under the same key
      opens, and it opens to the text it was made from; everything else
      fails (Fernet's `InvalidToken`). */
  function Decrypt(key: Key, c: Cipher): (r: Option<string>)
    ensures r.Some? <==> c.Token? && c.key == key
    ensures r.Some? ==> r.value == c.plain
  {
    match c
    case Token(k, _, p) => if k == key then Some(p) else None
    case Forged(_) => None
  }

  /** `Fernet(key).encrypt(plain)`; `nonce` stands for the fresh random IV
      and the timestamp of each call. Decrypting under the same key gives
      the plaintext back. */
  function Encrypt(key: Key, nonce: nat, plain: string): (c: Cipher)
    ensures Decrypt(key, c) == Some(plain)
  {
    Token(key, nonce, plain)
  }

  /** A token made under one key never opens under another. */
  lemma WrongKeyFails(key: Key, other: Key, nonce: nat, plain: string)
    requires key != other
    ensures Decrypt(other, Encrypt(key, nonce, plain)) == None
  {
  }
}
