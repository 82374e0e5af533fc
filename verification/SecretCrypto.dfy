/** Secrets under a data key under an environment's vault key, and vault keys granted to people. */
module SecretCrypto {
  import opened Aead
  import opened Locations
  import opened Outcomes
  import Utf8

  type Bytes = seq<Utf8.Byte>

  /** Where one version of one secret lives. */
  datatype Place = Place(env: string, secret: string, version: int)

  predicate IsPlace(p: Place) {
    IsId(p.env) && IsId(p.secret)
  }

  function At(field: Field, p: Place): Location {
    SecretField(field, p.env, p.secret, p.version)
  }

  datatype EncryptedSecret = EncryptedSecret(encName: Blob, encValue: Blob, encDataKey: Blob)

  /** `dataKey` is the fresh random key of this write. */
  function EncryptSecret(vaultKey: Key, dataKey: Key, p: Place, name: Bytes, value: Bytes): EncryptedSecret {
    EncryptedSecret(
      SealAt(dataKey, name, At(Name, p)),
      SealAt(dataKey, value, At(Value, p)),
      WrapKey(vaultKey, dataKey, Aad(At(DataKey, p))))
  }

  function UnwrapDataKey(vaultKey: Key, p: Place, encDataKey: Blob): Result<Key, CryptoError> {
    UnwrapKey(vaultKey, encDataKey, Aad(At(DataKey, p)))
  }

  function DecryptField(vaultKey: Key, p: Place, field: Field, enc: Blob, encDataKey: Blob)
    : Result<Bytes, CryptoError>
  {
    match UnwrapDataKey(vaultKey, p, encDataKey)
    case Err(e) => Err(e)
    case Ok(dataKey) => OpenAt(dataKey, enc, At(field, p))
  }

  function DecryptName(vaultKey: Key, p: Place, encName: Blob, encDataKey: Blob): Result<Bytes, CryptoError> {
    DecryptField(vaultKey, p, Name, encName, encDataKey)
  }

  function DecryptValue(vaultKey: Key, p: Place, encValue: Blob, encDataKey: Blob): Result<Bytes, CryptoError> {
    DecryptField(vaultKey, p, Value, encValue, encDataKey)
  }

  /** Name and value together, the data key unwrapped once; the name's failure comes first. */
  function DecryptSecret(vaultKey: Key, p: Place, enc: EncryptedSecret): Result<(Bytes, Bytes), CryptoError> {
    match UnwrapDataKey(vaultKey, p, enc.encDataKey)
    case Err(e) => Err(e)
    case Ok(dataKey) =>
      var name := OpenAt(dataKey, enc.encName, At(Name, p));
      var value := OpenAt(dataKey, enc.encValue, At(Value, p));
      match (name, value)
      case (Ok(n), Ok(v)) => Ok((n, v))
      case (Ok(_), Err(e)) => Err(e)
      case (Err(e), _) => Err(e)
  }

  function RewrapDataKey(oldKey: Key, newKey: Key, p: Place, encDataKey: Blob): Result<Blob, CryptoError> {
    match UnwrapDataKey(oldKey, p, encDataKey)
    case Err(e) => Err(e)
    case Ok(dataKey) => Ok(WrapKey(newKey, dataKey, Aad(At(DataKey, p))))
  }

  // ---------- grants ----------

  function GrantVaultKey(recipient: PublicKey, vaultKey: Key): Box {
    SealToPublic(recipient, vaultKey)
  }

  function OpenVaultKey(keypair: Keypair, grant: Box): Result<Key, CryptoError> {
    match OpenSealed(keypair, grant)
    case Err(e) => Err(e)
    case Ok(bytes) => AsKey(bytes)
  }

  // ---------- display names ----------

  function EncryptDisplayName(key: Key, record: Record, id: string, name: Bytes): Blob {
    SealAt(key, name, DisplayName(record, id))
  }

  function DecryptDisplayName(key: Key, record: Record, id: string, enc: Blob): Result<Bytes, CryptoError> {
    OpenAt(key, enc, DisplayName(record, id))
  }

  // ---------- a secret opens where it was written, and nowhere else ----------

  lemma UnwrapsInPlace(k: Key, dataKey: Key, p: Place, k2: Key, q: Place)
    requires IsPlace(p) && IsPlace(q)
    ensures UnwrapDataKey(k2, q, WrapKey(k, dataKey, Aad(At(DataKey, p)))) ==
            if k2 == k && q == p then Ok(dataKey) else Err(Crypto)
  {
    OpensInPlace(k, dataKey, At(DataKey, p), k2, At(DataKey, q));
  }

  /** Under any key and at any place, reading a written secret gives its name and value, or fails:
      exactly its own key and place read it. */
  lemma ReadsWhereWritten(k: Key, dataKey: Key, p: Place, name: Bytes, value: Bytes, k2: Key, q: Place)
    requires IsPlace(p) && IsPlace(q)
    ensures var enc := EncryptSecret(k, dataKey, p, name, value);
            && DecryptSecret(k2, q, enc) == (if k2 == k && q == p then Ok((name, value)) else Err(Crypto))
            && DecryptName(k2, q, enc.encName, enc.encDataKey) ==
               (if k2 == k && q == p then Ok(name) else Err(Crypto))
            && DecryptValue(k2, q, enc.encValue, enc.encDataKey) ==
               (if k2 == k && q == p then Ok(value) else Err(Crypto))
  {
    UnwrapsInPlace(k, dataKey, p, k2, q);
  }

  /** A field sealed for one place and field, read with some other write's data key: it opens only
      as that field, at that place, when both writes used the same data key. */
  lemma FieldsDoNotMix(k: Key, dataKey: Key, p: Place, f: Field, plaintext: Bytes,
                       dataKey2: Key, p2: Place, k2: Key, q: Place, g: Field)
    requires IsPlace(p) && IsPlace(p2) && IsPlace(q)
    ensures var enc := SealAt(dataKey, plaintext, At(f, p));
            var wrapped := WrapKey(k, dataKey2, Aad(At(DataKey, p2)));
            DecryptField(k2, q, g, enc, wrapped) ==
            if k2 == k && q == p == p2 && g == f && dataKey == dataKey2 then Ok(plaintext) else Err(Crypto)
  {
    UnwrapsInPlace(k, dataKey2, p2, k2, q);
    OpensInPlace(dataKey, plaintext, At(f, p), dataKey2, At(g, q));
  }

  /** A display name is readable as that record's name only, and never as part of a secret. */
  lemma DisplayNamesStay(k: Key, record: Record, id: string, name: Bytes,
                         k2: Key, record2: Record, id2: string, q: Place, f: Field)
    requires IsId(id) && IsId(id2) && IsPlace(q)
    ensures var enc := EncryptDisplayName(k, record, id, name);
            && DecryptDisplayName(k2, record2, id2, enc) ==
               (if k2 == k && record2 == record && id2 == id then Ok(name) else Err(Crypto))
            && OpenAt(k2, enc, At(f, q)).Err?
  {
    OpensInPlace(k, name, DisplayName(record, id), k2, DisplayName(record2, id2));
    OpensInPlace(k, name, DisplayName(record, id), k2, At(f, q));
  }

  // ---------- rewrapping keeps the meaning ----------

  /** Whatever the blobs are, a rewrapped data key reads under the new vault key what the old one read
      under the oldKey, and reads nothing under any other key. Rewrapping succeeds exactly where the data
      key could be unwrapped. */
  lemma RewrapKeepsMeaning(oldKey: Key, newKey: Key, p: Place, enc: EncryptedSecret)
    ensures RewrapDataKey(oldKey, newKey, p, enc.encDataKey).Ok? == UnwrapDataKey(oldKey, p, enc.encDataKey).Ok?
    ensures RewrapDataKey(oldKey, newKey, p, enc.encDataKey).Ok? ==>
              var moved := enc.(encDataKey := RewrapDataKey(oldKey, newKey, p, enc.encDataKey).value);
              && DecryptSecret(newKey, p, moved) == DecryptSecret(oldKey, p, enc)
              && (forall k: Key :: k != newKey ==> UnwrapDataKey(k, p, moved.encDataKey).Err?)
  {
  }

  /** A grant opens to the vault key for its recipient, and for no one else. */
  lemma GrantReachesRecipient(secret: Key, vaultKey: Key, other: Key)
    ensures OpenVaultKey(KeypairFromSecret(other), GrantVaultKey(PublicOf(secret), vaultKey)) ==
            if other == secret then Ok(vaultKey) else Err(Crypto)
  {
  }
}
