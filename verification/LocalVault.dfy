/** Secrets by name over the local store, which knows rows by id and sees no plaintext. */
module LocalVault {
  import opened Aead
  import opened LocalStore
  import opened Ordering
  import opened Outcomes
  import opened SecretCrypto
  import Utf8

  /** An open environment. */
  datatype Unlocked = Unlocked(env: string, key: Key)

  // ---------- reading rows ----------

  function NameOf(u: Unlocked, r: SecretRow): Option<string> {
    match DecryptName(u.key, Place(u.env, r.id, r.row.version), r.row.enc.encName, r.row.enc.encDataKey)
    case Err(_) => None
    case Ok(bytes) => Utf8.Decode(bytes)
  }

  function ValueOf(u: Unlocked, r: SecretRow): Option<Bytes> {
    match DecryptValue(u.key, Place(u.env, r.id, r.row.version), r.row.enc.encValue, r.row.enc.encDataKey)
    case Err(_) => None
    case Ok(bytes) => Some(bytes)
  }

  function EntryOf(u: Unlocked, r: SecretRow): Option<(string, Bytes)> {
    match DecryptSecret(u.key, Place(u.env, r.id, r.row.version), r.row.enc)
    case Err(_) => None
    case Ok((name, value)) =>
      match Utf8.Decode(name)
      case None => None
      case Some(n) => Some((n, value))
  }

  function Encrypted(u: Unlocked, id: string, version: int, name: string, value: Bytes, dataKey: Key)
    : EncryptedSecret
  {
    EncryptSecret(u.key, dataKey, Place(u.env, id, version), Utf8.Encode(name), value)
  }

  predicate EntryLe(a: (string, Bytes), b: (string, Bytes)) {
    StrLe(a.0, b.0)
  }

  function EntryName(e: (string, Bytes)): string {
    e.0
  }

  // ---------- what each operation does to the tables ----------

  ghost predicate Named(t: Tables, u: Unlocked, deleted: bool, name: string, r: SecretRow) {
    Listed(t, u.env, deleted, r) && NameOf(u, r) == Some(name)
  }

  ghost predicate NoneNamed(t: Tables, u: Unlocked, deleted: bool, name: string) {
    forall r :: Listed(t, u.env, deleted, r) ==> NameOf(u, r).Some? && NameOf(u, r) != Some(name)
  }

  ghost predicate SomeUnreadable(t: Tables, u: Unlocked, deleted: bool) {
    exists r :: Listed(t, u.env, deleted, r) && NameOf(u, r).None?
  }

  /** A lookup gives a row of that name, or finds every row readable and differently named, or meets
      an unreadable row first. */
  ghost predicate Finds(t: Tables, u: Unlocked, deleted: bool, name: string,
                        r: Result<Option<SecretRow>, VaultError>)
  {
    match r
    case Ok(Some(row)) => Named(t, u, deleted, name, row)
    case Ok(None) => NoneNamed(t, u, deleted, name)
    case Err(e) => e == VaultError.Crypto && SomeUnreadable(t, u, deleted)
  }

  function NextVersion(t: Tables, u: Unlocked, r: SecretRow, name: string, value: Bytes, dataKey: Key)
    : Result<Tables, VaultError>
  {
    var v := r.row.version + 1;
    Updated(t, r.id, v, Encrypted(u, r.id, v, name, value, dataKey))
  }

  function FirstVersion(t: Tables, u: Unlocked, id: string, name: string, value: Bytes, dataKey: Key)
    : Result<Tables, VaultError>
  {
    Inserted(t, id, u.env, Encrypted(u, id, 1, name, value, dataKey))
  }

  /** Setting a name writes the next version of a live row of that name, or else of a deleted one, or
      else a first version under the new id. */
  ghost predicate SetWrites(t: Tables, u: Unlocked, name: string, value: Bytes, newId: string, dataKey: Key,
                            written: Result<Tables, VaultError>)
  {
    || (exists r :: Named(t, u, false, name, r) && written == NextVersion(t, u, r, name, value, dataKey))
    || (NoneNamed(t, u, false, name) &&
        exists r :: Named(t, u, true, name, r) && written == NextVersion(t, u, r, name, value, dataKey))
    || (NoneNamed(t, u, false, name) && NoneNamed(t, u, true, name) &&
        written == FirstVersion(t, u, newId, name, value, dataKey))
  }

  ghost predicate Sets(t: Tables, u: Unlocked, name: string, value: Bytes, newId: string, dataKey: Key,
                       t2: Tables, o: Outcome)
  {
    || (o == Failed(VaultError.Crypto) && t2 == t && (SomeUnreadable(t, u, false) || SomeUnreadable(t, u, true)))
    || (exists written :: SetWrites(t, u, name, value, newId, dataKey, written) && (t2, o) == Settled(t, written))
  }

  ghost predicate Deletes(t: Tables, u: Unlocked, name: string, t2: Tables, o: Outcome) {
    || (o == Failed(VaultError.Crypto) && t2 == t && SomeUnreadable(t, u, false))
    || (o == Failed(NotFound) && t2 == t && NoneNamed(t, u, false, name))
    || (exists r :: Named(t, u, false, name, r) && (t2, o) == Settled(t, Tombstoned(t, r.id)))
  }

  ghost predicate Gets(t: Tables, u: Unlocked, name: string, r: Result<Bytes, VaultError>) {
    || (r == Err(VaultError.Crypto) && SomeUnreadable(t, u, false))
    || (r == Err(NotFound) && NoneNamed(t, u, false, name))
    || (exists row :: Named(t, u, false, name, row) &&
                      r == if ValueOf(u, row).Some? then Ok(ValueOf(u, row).value) else Err(VaultError.Crypto))
  }

  function EntriesOf(u: Unlocked, rows: seq<SecretRow>): (es: seq<(string, Bytes)>)
    requires forall k :: 0 <= k < |rows| ==> EntryOf(u, rows[k]).Some?
    ensures |es| == |rows|
    ensures forall k :: 0 <= k < |rows| ==> es[k] == EntryOf(u, rows[k]).value
  {
    seq(|rows|, k requires 0 <= k < |rows| => EntryOf(u, rows[k]).value)
  }

  ghost predicate AllEntries(u: Unlocked, rows: seq<SecretRow>) {
    forall k :: 0 <= k < |rows| ==> EntryOf(u, rows[k]).Some?
  }

  /** All live entries, sorted by name; or a failure when one cannot be read. */
  ghost predicate Reads(t: Tables, u: Unlocked, r: Result<seq<(string, Bytes)>, VaultError>) {
    exists rows :: IsListing(t, u.env, false, rows) &&
                   if AllEntries(u, rows)
                   then r == Ok(SortBy(EntryLe, EntriesOf(u, rows)))
                   else r == Err(VaultError.Crypto)
  }

  function NamesOf(u: Unlocked, rows: seq<SecretRow>): (names: seq<string>)
    requires forall k :: 0 <= k < |rows| ==> NameOf(u, rows[k]).Some?
    ensures |names| == |rows|
    ensures forall k :: 0 <= k < |rows| ==> names[k] == NameOf(u, rows[k]).value
  {
    seq(|rows|, k requires 0 <= k < |rows| => NameOf(u, rows[k]).value)
  }

  ghost predicate AllNames(u: Unlocked, rows: seq<SecretRow>) {
    forall k :: 0 <= k < |rows| ==> NameOf(u, rows[k]).Some?
  }

  ghost predicate ListsNames(t: Tables, u: Unlocked, r: Result<seq<string>, VaultError>) {
    exists rows :: IsListing(t, u.env, false, rows) &&
                   if AllNames(u, rows)
                   then r == Ok(SortBy(StrLe, NamesOf(u, rows)))
                   else r == Err(VaultError.Crypto)
  }

  // ---------- the vault ----------

  class Vault {
    const store: Store
    const open: Unlocked

    constructor (store: Store, open: Unlocked)
      ensures this.store == store && this.open == open
    {
      this.store, this.open := store, open;
    }

    /** Decrypts row by row until a name matches. */
    method ResolveName(name: string, rows: seq<SecretRow>) returns (r: Result<Option<SecretRow>, VaultError>)
      ensures r.Ok? && r.value.Some? ==> r.value.value in rows && NameOf(open, r.value.value) == Some(name)
      ensures r.Ok? && r.value.None? ==>
                forall row :: row in rows ==> NameOf(open, row).Some? && NameOf(open, row) != Some(name)
      ensures r.Err? ==> r.error == VaultError.Crypto && exists row :: row in rows && NameOf(open, row).None?
    {
      hide NameOf;
      for k := 0 to |rows|
        invariant forall i :: 0 <= i < k ==> NameOf(open, rows[i]).Some? && NameOf(open, rows[i]) != Some(name)
      {
        var found := NameOf(open, rows[k]);
        if found.None? {
          assert rows[k] in rows;
          return Err(VaultError.Crypto);
        }
        if found.value == name {
          return Ok(Some(rows[k]));
        }
      }
      r := Ok(None);
    }

    method FindByName(name: string) returns (r: Result<Option<SecretRow>, VaultError>)
      ensures Finds(store.View(), open, false, name, r)
    {
      hide NameOf, Listed;
      var rows := store.SecretRows(open.env, false);
      r := ResolveName(name, rows);
    }

    method FindDeletedByName(name: string) returns (r: Result<Option<SecretRow>, VaultError>)
      ensures Finds(store.View(), open, true, name, r)
    {
      hide NameOf, Listed;
      var rows := store.SecretRows(open.env, true);
      r := ResolveName(name, rows);
    }

    /** `newId` and `dataKey` are the random id and key this write draws. */
    method Set(name: string, value: Bytes, newId: string, dataKey: Key) returns (o: Outcome)
      modifies store`secrets, store`versions
      ensures Sets(old(store.View()), open, name, value, newId, dataKey, store.View(), o)
    {
      hide NameOf, Listed, NoneNamed, SomeUnreadable, Updated, Inserted, Encrypted, Settled;
      ghost var t := store.View();
      var found := FindByName(name);
      if found.Err? {
        return Failed(found.error);
      }
      var existing := found.value;
      if existing.None? {
        found := FindDeletedByName(name);
        if found.Err? {
          return Failed(found.error);
        }
        existing := found.value;
      }
      match existing
      case Some(r) =>
        var v := r.row.version + 1;
        var enc := Encrypted(open, r.id, v, name, value, dataKey);
        o := store.UpdateSecret(r.id, v, enc);
        assert SetWrites(t, open, name, value, newId, dataKey, NextVersion(t, open, r, name, value, dataKey));
      case None =>
        var enc := Encrypted(open, newId, 1, name, value, dataKey);
        o := store.InsertSecret(newId, open.env, enc);
        assert SetWrites(t, open, name, value, newId, dataKey, FirstVersion(t, open, newId, name, value, dataKey));
    }

    method Get(name: string) returns (r: Result<Bytes, VaultError>)
      ensures Gets(store.View(), open, name, r)
    {
      hide NameOf, ValueOf, Listed, NoneNamed, SomeUnreadable;
      var found := FindByName(name);
      if found.Err? {
        return Err(found.error);
      }
      if found.value.None? {
        return Err(NotFound);
      }
      var value := ValueOf(open, found.value.value);
      r := if value.Some? then Ok(value.value) else Err(VaultError.Crypto);
    }

    method Delete(name: string) returns (o: Outcome)
      modifies store`secrets
      ensures Deletes(old(store.View()), open, name, store.View(), o)
    {
      hide NameOf, Listed, NoneNamed, SomeUnreadable, Tombstoned, Settled;
      var found := FindByName(name);
      if found.Err? {
        return Failed(found.error);
      }
      if found.value.None? {
        return Failed(NotFound);
      }
      o := store.DeleteSecret(found.value.value.id);
    }

    /** The id of a live secret of this name, or else of a deleted one. */
    method FindIdByName(name: string) returns (r: Result<Option<string>, VaultError>)
      ensures r.Ok? && r.value.Some? ==>
                exists row: SecretRow :: r.value.value == row.id &&
                  (Named(store.View(), open, false, name, row) ||
                   (NoneNamed(store.View(), open, false, name) && Named(store.View(), open, true, name, row)))
      ensures r.Ok? && r.value.None? ==>
                NoneNamed(store.View(), open, false, name) && NoneNamed(store.View(), open, true, name)
      ensures r.Err? ==> r.error == VaultError.Crypto &&
                         (SomeUnreadable(store.View(), open, false) || SomeUnreadable(store.View(), open, true))
    {
      hide NameOf, Listed, NoneNamed, SomeUnreadable;
      var live := FindByName(name);
      if live.Err? {
        return Err(live.error);
      }
      if live.value.Some? {
        assert Named(store.View(), open, false, name, live.value.value);
        return Ok(Some(live.value.value.id));
      }
      var dead := FindDeletedByName(name);
      if dead.Err? {
        return Err(dead.error);
      }
      if dead.value.Some? {
        assert Named(store.View(), open, true, name, dead.value.value);
        return Ok(Some(dead.value.value.id));
      }
      r := Ok(None);
    }

    method Entries() returns (r: Result<seq<(string, Bytes)>, VaultError>)
      ensures Reads(store.View(), open, r)
    {
      hide EntryOf, Listed, IsListing;
      var rows := store.SecretRows(open.env, false);
      var entries: seq<(string, Bytes)> := [];
      for k := 0 to |rows|
        invariant AllEntries(open, rows[..k])
        invariant entries == EntriesOf(open, rows[..k])
      {
        var entry := EntryOf(open, rows[k]);
        if entry.None? {
          return Err(VaultError.Crypto);
        }
        assert rows[..k + 1] == rows[..k] + [rows[k]];
        entries := entries + [entry.value];
      }
      assert rows[..|rows|] == rows;
      r := Ok(SortBy(EntryLe, entries));
    }

    method ListNames() returns (r: Result<seq<string>, VaultError>)
      ensures ListsNames(store.View(), open, r)
    {
      hide NameOf, Listed, IsListing;
      var rows := store.SecretRows(open.env, false);
      var names: seq<string> := [];
      for k := 0 to |rows|
        invariant AllNames(open, rows[..k])
        invariant names == NamesOf(open, rows[..k])
      {
        var name := NameOf(open, rows[k]);
        if name.None? {
          return Err(VaultError.Crypto);
        }
        assert rows[..k + 1] == rows[..k] + [rows[k]];
        names := names + [name.value];
      }
      assert rows[..|rows|] == rows;
      r := Ok(SortBy(StrLe, names));
    }
  }

  /** The environment of this name, its vault key opened from the grant. */
  method OpenVault(store: Store, keypair: Keypair, name: string) returns (r: Result<Vault, VaultError>)
    ensures name !in store.environments ==> r == Err(NotFound)
    ensures name in store.environments ==>
              var env := store.environments[name];
              match OpenVaultKey(keypair, env.grant)
              case Err(_) => r == Err(VaultError.Crypto)
              case Ok(key) => r.Ok? && fresh(r.value) && r.value.store == store &&
                              r.value.open == Unlocked(env.id, key)
  {
    if name !in store.environments {
      return Err(NotFound);
    }
    var env := store.environments[name];
    var key := OpenVaultKey(keypair, env.grant);
    if key.Err? {
      return Err(VaultError.Crypto);
    }
    var vault := new Vault(store, Unlocked(env.id, key.value));
    r := Ok(vault);
  }
}
