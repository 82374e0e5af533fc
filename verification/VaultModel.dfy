/** What a vault's rows amount to: a map from names to values, and for every name the values it has
    had. Every run of the vault's operations acts on the rows as it acts on the map. */
module VaultModel {
  import opened Aead
  import opened LocalStore
  import opened LocalVault
  import opened Ordering
  import opened Outcomes
  import opened SecretCrypto
  import Utf8

  /** `live` is the map a user sees, `past` all values a name was ever set to, oldest first, and `ids`
      the row behind each name, live or deleted. */
  datatype Model = Model(ids: map<string, string>, live: map<string, Bytes>, past: map<string, seq<Bytes>>)

  const EMPTY := Model(map[], map[], map[])

  ghost predicate VersionReads(u: Unlocked, id: string, v: int, enc: EncryptedSecret, name: string, value: Bytes) {
    DecryptSecret(u.key, Place(u.env, id, v), enc) == Ok((Utf8.Encode(name), value))
  }

  /** One row carries one name; its history is exactly versions 1 to the current one, and version `v`
      reads as the name and its `v`-th value. */
  ghost predicate RowFor(t: Tables, u: Unlocked, name: string, id: string, values: seq<Bytes>, live: bool) {
    && |values| >= 1
    && id in t.secrets
    && t.secrets[id].env == u.env
    && t.secrets[id].version == |values|
    && t.secrets[id].deleted == !live
    && (forall v :: (id, v) in t.versions <==> 1 <= v <= |values|)
    && (forall v :: 1 <= v <= |values| ==> VersionReads(u, id, v, t.versions[(id, v)], name, values[v - 1]))
    && t.versions[(id, |values|)] == t.secrets[id].enc
  }

  ghost predicate Owned(m: Model, id: string) {
    exists name :: name in m.ids && m.ids[name] == id
  }

  ghost predicate WellFormed(m: Model) {
    && m.past.Keys == m.ids.Keys
    && m.live.Keys <= m.ids.Keys
    && (forall name :: name in m.past ==> m.past[name] != [])
    && (forall name :: name in m.live ==> m.live[name] == m.past[name][|m.past[name]| - 1])
  }

  ghost predicate RowsCarry(t: Tables, u: Unlocked, m: Model)
    requires WellFormed(m)
  {
    forall name :: name in m.ids ==> RowFor(t, u, name, m.ids[name], m.past[name], name in m.live)
  }

  ghost predicate RowsOwned(t: Tables, u: Unlocked, m: Model) {
    forall id :: id in t.secrets && t.secrets[id].env == u.env ==> Owned(m, id)
  }

  ghost predicate Represents(t: Tables, u: Unlocked, m: Model) {
    WellFormed(m) && RowsCarry(t, u, m) && RowsOwned(t, u, m)
  }

  // ---------- reading a represented vault ----------

  lemma RowReads(t: Tables, u: Unlocked, name: string, id: string, values: seq<Bytes>, live: bool)
    requires RowFor(t, u, name, id, values, live)
    ensures var r := SecretRow(id, t.secrets[id]);
            && NameOf(u, r) == Some(name)
            && ValueOf(u, r) == Some(values[|values| - 1])
            && EntryOf(u, r) == Some((name, values[|values| - 1]))
  {
    Utf8.RoundTrip(name);
    assert VersionReads(u, id, |values|, t.versions[(id, |values|)], name, values[|values| - 1]);
  }

  lemma RowOf(t: Tables, u: Unlocked, m: Model, name: string)
    requires Represents(t, u, m) && name in m.ids
    ensures name in m.past && RowFor(t, u, name, m.ids[name], m.past[name], name in m.live)
    ensures name in m.live ==> m.live[name] == m.past[name][|m.past[name]| - 1]
    ensures m.ids[name] in t.secrets
  {
    hide VersionReads;
  }

  /** Names are unique, counting deleted rows too: a row is named so exactly when it is the name's row. */
  lemma NamedIsItsRow(t: Tables, u: Unlocked, m: Model, deleted: bool, r: SecretRow)
    requires Represents(t, u, m) && Listed(t, u.env, deleted, r)
    ensures NameOf(u, r).Some?
    ensures var name := NameOf(u, r).value; name in m.ids && m.ids[name] == r.id && (name !in m.live) == deleted
  {
    assert Owned(m, r.id);
    var name :| name in m.ids && m.ids[name] == r.id;
    RowReads(t, u, name, r.id, m.past[name], name in m.live);
  }

  lemma RowListed(t: Tables, u: Unlocked, m: Model, name: string)
    requires Represents(t, u, m) && name in m.ids
    ensures m.ids[name] in t.secrets
    ensures Named(t, u, name !in m.live, name, SecretRow(m.ids[name], t.secrets[m.ids[name]]))
  {
    RowReads(t, u, name, m.ids[name], m.past[name], name in m.live);
  }

  lemma Lookups(t: Tables, u: Unlocked, m: Model, deleted: bool, name: string)
    requires Represents(t, u, m)
    ensures !SomeUnreadable(t, u, deleted)
    ensures NoneNamed(t, u, deleted, name) <==> !(name in m.ids && (name !in m.live) == deleted)
    ensures forall r :: Named(t, u, deleted, name, r) ==>
              name in m.ids && (name !in m.live) == deleted && r == SecretRow(m.ids[name], t.secrets[m.ids[name]])
  {
    forall r | Listed(t, u.env, deleted, r)
      ensures NameOf(u, r).Some? && NameOf(u, r).value in m.ids && m.ids[NameOf(u, r).value] == r.id
      ensures (NameOf(u, r).value !in m.live) == deleted
    {
      NamedIsItsRow(t, u, m, deleted, r);
    }
    if name in m.ids && (name !in m.live) == deleted {
      RowListed(t, u, m, name);
    }
  }

  lemma UniqueNames(t: Tables, u: Unlocked, m: Model, deleted: bool, r: SecretRow, deleted2: bool, r2: SecretRow)
    requires Represents(t, u, m) && Listed(t, u.env, deleted, r) && Listed(t, u.env, deleted2, r2)
    requires NameOf(u, r) == NameOf(u, r2)
    ensures r == r2
  {
    NamedIsItsRow(t, u, m, deleted, r);
    NamedIsItsRow(t, u, m, deleted2, r2);
  }

  lemma GetReadsMap(t: Tables, u: Unlocked, m: Model, name: string, r: Result<Bytes, VaultError>)
    requires Represents(t, u, m) && Gets(t, u, name, r)
    ensures r == if name in m.live then Ok(m.live[name]) else Err(NotFound)
  {
    hide RowFor, NameOf, ValueOf, NoneNamed, SomeUnreadable, RowsCarry, RowsOwned, Listed;
    Lookups(t, u, m, false, name);
    if name in m.live {
      RowOf(t, u, m, name);
      RowReads(t, u, name, m.ids[name], m.past[name], true);
    }
  }

  /** The entries of a map in the order of their names. */
  ghost predicate Lists(es: seq<(string, Bytes)>, live: map<string, Bytes>) {
    && Ascending(EntryName, es)
    && forall n, v :: (n, v) in es <==> n in live && live[n] == v
  }

  lemma EntryLeOrder()
    ensures TotalPreorder(EntryLe)
    ensures forall x, y :: EntryLe(x, y) ==> StrLe(EntryName(x), EntryName(y))
  {
    StrLeOrder();
    assert forall x, y :: EntryLe(x, y) <==> StrLe(x.0, y.0);
  }

  lemma EntryOfListed(t: Tables, u: Unlocked, m: Model, r: SecretRow)
    requires Represents(t, u, m) && Listed(t, u.env, false, r)
    ensures EntryOf(u, r).Some? && NameOf(u, r).Some?
    ensures var (n, v) := EntryOf(u, r).value;
            NameOf(u, r) == Some(n) && n in m.live && m.live[n] == v && m.ids[n] == r.id
  {
    hide RowFor, NameOf, EntryOf, RowsCarry, RowsOwned;
    NamedIsItsRow(t, u, m, false, r);
    var name := NameOf(u, r).value;
    RowOf(t, u, m, name);
    RowReads(t, u, name, r.id, m.past[name], true);
  }

  lemma EntriesOfListing(t: Tables, u: Unlocked, m: Model, rows: seq<SecretRow>)
    requires Represents(t, u, m) && IsListing(t, u.env, false, rows)
    ensures AllEntries(u, rows) && AllNames(u, rows)
    ensures var es := EntriesOf(u, rows);
            && DistinctKeys(EntryName, es)
            && (forall n, v :: (n, v) in es <==> n in m.live && m.live[n] == v)
    ensures var names := NamesOf(u, rows);
            DistinctKeys(Self, names) && (forall n :: n in names <==> n in m.live)
  {
    forall k | 0 <= k < |rows|
      ensures EntryOf(u, rows[k]).Some? && NameOf(u, rows[k]).Some?
      ensures var (n, v) := EntryOf(u, rows[k]).value;
              NameOf(u, rows[k]) == Some(n) && n in m.live && m.live[n] == v && m.ids[n] == rows[k].id
    {
      assert rows[k] in rows;
      EntryOfListed(t, u, m, rows[k]);
    }
    var es, names := EntriesOf(u, rows), NamesOf(u, rows);
    forall n | n in m.live
      ensures (n, m.live[n]) in es && n in names
    {
      RowListed(t, u, m, n);
      var r := SecretRow(m.ids[n], t.secrets[m.ids[n]]);
      assert r in rows;
      var k :| 0 <= k < |rows| && rows[k] == r;
      assert es[k] == (n, m.live[n]) && names[k] == n;
    }
  }

  lemma EntriesListMap(t: Tables, u: Unlocked, m: Model, r: Result<seq<(string, Bytes)>, VaultError>)
    requires Represents(t, u, m) && Reads(t, u, r)
    ensures r.Ok? && Lists(r.value, m.live)
  {
    var rows :| IsListing(t, u.env, false, rows) &&
                if AllEntries(u, rows)
                then r == Ok(SortBy(EntryLe, EntriesOf(u, rows)))
                else r == Err(VaultError.Crypto);
    EntriesOfListing(t, u, m, rows);
    EntryLeOrder();
    SortDistinctAscending(EntryLe, EntryName, EntriesOf(u, rows));
  }

  lemma NamesAreSorted(t: Tables, u: Unlocked, m: Model, r: Result<seq<string>, VaultError>)
    requires Represents(t, u, m) && ListsNames(t, u, r)
    ensures r == Ok(SortedKeys(m.live.Keys))
  {
    var rows :| IsListing(t, u.env, false, rows) &&
                if AllNames(u, rows)
                then r == Ok(SortBy(StrLe, NamesOf(u, rows)))
                else r == Err(VaultError.Crypto);
    EntriesOfListing(t, u, m, rows);
    StrLeIsOrder();
    SortDistinctAscending(StrLe, Self, NamesOf(u, rows));
    AscendingUnique(Self, r.value, SortedKeys(m.live.Keys));
  }
}
