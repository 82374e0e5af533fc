/** Ideal cryptography: a sealed blob opens under its own key and associated data and under nothing
    else, and a box opens for its recipient only. Nonces, and bytes that no one sealed, have no
    structure of their own. */
module Aead {
  import opened Outcomes
  import opened Utf8

  const KEY_LEN := 32

  type Key = k: seq<Byte> | |k| == KEY_LEN witness seq(KEY_LEN, i => 0)

  datatype CryptoError = Crypto | Malformed

  datatype Blob =
    | Sealed(key: Key, aad: seq<Byte>, plaintext: seq<Byte>)
    | Garbage(bytes: seq<Byte>)

  function Seal(key: Key, plaintext: seq<Byte>, aad: seq<Byte>): Blob {
    Sealed(key, aad, plaintext)
  }

  function Open(key: Key, blob: Blob, aad: seq<Byte>): Result<seq<Byte>, CryptoError> {
    if blob.Sealed? && blob.key == key && blob.aad == aad then Ok(blob.plaintext) else Err(Crypto)
  }

  function AsKey(bytes: seq<Byte>): Result<Key, CryptoError> {
    if |bytes| == KEY_LEN then Ok(bytes) else Err(Malformed)
  }

  function WrapKey(kek: Key, key: Key, aad: seq<Byte>): Blob {
    Seal(kek, key, aad)
  }

  function UnwrapKey(kek: Key, wrapped: Blob, aad: seq<Byte>): Result<Key, CryptoError> {
    match Open(kek, wrapped, aad)
    case Err(e) => Err(e)
    case Ok(bytes) => AsKey(bytes)
  }

  // ---------- boxes sealed to a public key ----------

  /** No two secrets have the same public key. */
  datatype PublicKey = PublicOf(secret: Key)
  datatype Keypair = Keypair(public: PublicKey, secret: Key)

  function KeypairFromSecret(secret: Key): Keypair {
    Keypair(PublicOf(secret), secret)
  }

  datatype Box =
    | Boxed(recipient: PublicKey, content: seq<Byte>)
    | Debris(bytes: seq<Byte>)

  function SealToPublic(recipient: PublicKey, plaintext: seq<Byte>): Box {
    Boxed(recipient, plaintext)
  }

  /** Opening uses the secret alone. */
  function OpenSealed(keypair: Keypair, box: Box): Result<seq<Byte>, CryptoError> {
    if box.Boxed? && box.recipient == PublicOf(keypair.secret) then Ok(box.content) else Err(Crypto)
  }
}
