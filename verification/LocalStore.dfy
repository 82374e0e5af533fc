/** The local store's secret tables: current rows, and every version a row has had. The store sees
    ciphertext only. */
module LocalStore {
  import opened Aead
  import opened Outcomes
  import opened SecretCrypto

  datatype VaultError = NotFound | Conflict | Storage | Crypto | Input
  datatype Outcome = Done | Failed(error: VaultError)

  datatype EnvRow = EnvRow(id: string, grant: Box)
  datatype Row = Row(env: string, enc: EncryptedSecret, version: int, deleted: bool)
  datatype SecretRow = SecretRow(id: string, row: Row)
  /** A secret as a pull brings it. */
  datatype SyncSecret = SyncSecret(id: string, enc: EncryptedSecret, version: int, deleted: bool)

  /** One project's environments by name, secret rows by id, history by secret and version. */
  datatype Tables = Tables(
    environments: map<string, EnvRow>,
    secrets: map<string, Row>,
    versions: map<(string, int), EncryptedSecret>)

  predicate HasEnv(t: Tables, env: string) {
    exists name | name in t.environments :: t.environments[name].id == env
  }

  // ---------- what each statement leaves behind, or why it is rolled back ----------

  /** A history row is never overwritten: a second one for the same version is refused. */
  function Snapshot(t: Tables, id: string, version: int, enc: EncryptedSecret): Result<Tables, VaultError> {
    if (id, version) in t.versions then Err(Storage)
    else Ok(t.(versions := t.versions[(id, version) := enc]))
  }

  function Inserted(t: Tables, id: string, env: string, enc: EncryptedSecret): Result<Tables, VaultError> {
    if id in t.secrets || !HasEnv(t, env) then Err(Storage)
    else Snapshot(t.(secrets := t.secrets[id := Row(env, enc, 1, false)]), id, 1, enc)
  }

  function Updated(t: Tables, id: string, version: int, enc: EncryptedSecret): Result<Tables, VaultError> {
    if id !in t.secrets then Err(NotFound)
    else if version != t.secrets[id].version + 1 then Err(Conflict)
    else Snapshot(t.(secrets := t.secrets[id := Row(t.secrets[id].env, enc, version, false)]), id, version, enc)
  }

  function Tombstoned(t: Tables, id: string): Result<Tables, VaultError> {
    if id !in t.secrets || t.secrets[id].deleted then Err(NotFound)
    else Ok(t.(secrets := t.secrets[id := t.secrets[id].(deleted := true)]))
  }

  /** The server's state replaces the row; a version already in history stays as it was recorded. */
  function Pulled(t: Tables, env: string, s: SyncSecret): Result<Tables, VaultError> {
    if !HasEnv(t, env) then Err(Storage)
    else
      var rows := t.secrets[s.id := Row(env, s.enc, s.version, s.deleted)];
      var kept := if (s.id, s.version) in t.versions then t.versions else t.versions[(s.id, s.version) := s.enc];
      Ok(t.(secrets := rows, versions := kept))
  }

  function Settled(t: Tables, r: Result<Tables, VaultError>): (Tables, Outcome) {
    match r
    case Ok(t2) => (t2, Done)
    case Err(e) => (t, Failed(e))
  }

  // ---------- the store ----------

  predicate Listed(t: Tables, env: string, deleted: bool, r: SecretRow) {
    r.id in t.secrets && r.row == t.secrets[r.id] && r.row.env == env && r.row.deleted == deleted
  }

  /** The rows of a listing: each once, in an order the store does not promise. */
  ghost predicate IsListing(t: Tables, env: string, deleted: bool, rows: seq<SecretRow>) {
    && (forall r :: r in rows <==> Listed(t, env, deleted, r))
    && (forall i, j :: 0 <= i < j < |rows| ==> rows[i].id != rows[j].id)
  }

  class Store {
    var environments: map<string, EnvRow>
    var secrets: map<string, Row>
    var versions: map<(string, int), EncryptedSecret>

    ghost function View(): Tables
      reads this
    {
      Tables(environments, secrets, versions)
    }

    constructor ()
      ensures View() == Tables(map[], map[], map[])
    {
      environments, secrets, versions := map[], map[], map[];
    }

    method SecretRows(env: string, deleted: bool) returns (rows: seq<SecretRow>)
      ensures IsListing(View(), env, deleted, rows)
    {
      rows := [];
      var pending := secrets.Keys;
      while pending != {}
        invariant pending <= secrets.Keys
        invariant forall r :: r in rows <==> Listed(View(), env, deleted, r) && r.id !in pending
        invariant forall i, j :: 0 <= i < j < |rows| ==> rows[i].id != rows[j].id
        decreases pending
      {
        var id :| id in pending;
        pending := pending - {id};
        if secrets[id].env == env && secrets[id].deleted == deleted {
          var next := SecretRow(id, secrets[id]);
          assert forall k :: 0 <= k < |rows| ==> rows[k] in rows;
          rows := rows + [next];
        }
      }
    }

    /** Records a version in history, unless that version is already there. */
    method RecordVersion(id: string, version: int, enc: EncryptedSecret) returns (ok: bool)
      modifies this`versions
      ensures Snapshot(old(View()), id, version, enc).Ok? == ok
      ensures ok ==> View() == Snapshot(old(View()), id, version, enc).value
      ensures !ok ==> View() == old(View())
    {
      ok := (id, version) !in versions;
      if ok {
        versions := versions[(id, version) := enc];
      }
    }

    method InsertSecret(id: string, env: string, enc: EncryptedSecret) returns (o: Outcome)
      modifies this`secrets, this`versions
      ensures (View(), o) == Settled(old(View()), Inserted(old(View()), id, env, enc))
    {
      var begun := secrets;
      if id in secrets || !(exists name | name in environments :: environments[name].id == env) {
        return Failed(Storage);
      }
      secrets := secrets[id := Row(env, enc, 1, false)];
      var recorded := RecordVersion(id, 1, enc);
      if !recorded {
        secrets := begun;
        return Failed(Storage);
      }
      o := Done;
    }

    method UpdateSecret(id: string, version: int, enc: EncryptedSecret) returns (o: Outcome)
      modifies this`secrets, this`versions
      ensures (View(), o) == Settled(old(View()), Updated(old(View()), id, version, enc))
    {
      var begun := secrets;
      if id !in secrets {
        return Failed(NotFound);
      }
      var current := secrets[id].version;
      if version != current + 1 {
        return Failed(Conflict);
      }
      // The update is gated on the version just read; within one transaction it is still there.
      secrets := secrets[id := Row(secrets[id].env, enc, version, false)];
      var recorded := RecordVersion(id, version, enc);
      if !recorded {
        secrets := begun;
        return Failed(Storage);
      }
      o := Done;
    }

    method DeleteSecret(id: string) returns (o: Outcome)
      modifies this`secrets
      ensures (View(), o) == Settled(old(View()), Tombstoned(old(View()), id))
    {
      if id !in secrets || secrets[id].deleted {
        return Failed(NotFound);
      }
      secrets := secrets[id := secrets[id].(deleted := true)];
      o := Done;
    }

    method PutRemoteSecret(env: string, s: SyncSecret) returns (o: Outcome)
      modifies this`secrets, this`versions
      ensures (View(), o) == Settled(old(View()), Pulled(old(View()), env, s))
    {
      if !(exists name | name in environments :: environments[name].id == env) {
        return Failed(Storage);
      }
      secrets := secrets[s.id := Row(env, s.enc, s.version, s.deleted)];
      if (s.id, s.version) !in versions {
        versions := versions[(s.id, s.version) := s.enc];
      }
      o := Done;
    }

    /** The versions kept of one secret, oldest first. */
    method SecretVersions(id: string) returns (history: seq<(int, EncryptedSecret)>)
      ensures forall i, j :: 0 <= i < j < |history| ==> history[i].0 < history[j].0
      ensures forall v, enc :: (v, enc) in history <==> (id, v) in versions && versions[(id, v)] == enc
    {
      history := [];
      var pending := set k | k in versions && k.0 == id;
      while pending != {}
        invariant forall k :: k in pending ==> k in versions && k.0 == id
        invariant forall i, j :: 0 <= i < j < |history| ==> history[i].0 < history[j].0
        invariant forall v, enc :: (v, enc) in history <==>
                    (id, v) in versions && (id, v) !in pending && versions[(id, v)] == enc
        decreases pending
      {
        var k :| k in pending;
        pending := pending - {k};
        history := InsertVersion(history, k.1, versions[k]);
      }
    }
  }

  function InsertVersion(history: seq<(int, EncryptedSecret)>, v: int, enc: EncryptedSecret)
    : (r: seq<(int, EncryptedSecret)>)
    requires forall i, j :: 0 <= i < j < |history| ==> history[i].0 < history[j].0
    requires forall i :: 0 <= i < |history| ==> history[i].0 != v
    ensures forall i, j :: 0 <= i < j < |r| ==> r[i].0 < r[j].0
    ensures forall x :: x in r <==> x in history || x == (v, enc)
  {
    if history == [] || v < history[0].0 then [(v, enc)] + history
    else
      var rest := InsertVersion(history[1..], v, enc);
      assert forall i :: 0 <= i < |rest| ==> rest[i] in rest;
      [history[0]] + rest
  }

  // ---------- what every statement keeps ----------

  /** The history table's foreign key. */
  ghost predicate HistoryOwned(t: Tables) {
    forall id, v :: (id, v) in t.versions ==> id in t.secrets
  }

  /** Each row's current version has its history entry, and a pair of secret and version has one entry. */
  ghost predicate CurrentRecorded(t: Tables) {
    forall id :: id in t.secrets ==> (id, t.secrets[id].version) in t.versions
  }

  /** No entry of history is changed or lost. */
  ghost predicate HistoryKept(t: Tables, t2: Tables) {
    forall k :: k in t.versions ==> k in t2.versions && t2.versions[k] == t.versions[k]
  }

  datatype Statement =
    | Insert(id: string, env: string, enc: EncryptedSecret)
    | Update(id: string, version: int, enc: EncryptedSecret)
    | Delete(id: string)
    | Pull(env: string, secret: SyncSecret)

  function Apply(t: Tables, s: Statement): Tables {
    var r := match s
      case Insert(id, env, enc) => Inserted(t, id, env, enc)
      case Update(id, version, enc) => Updated(t, id, version, enc)
      case Delete(id) => Tombstoned(t, id)
      case Pull(env, secret) => Pulled(t, env, secret);
    Settled(t, r).0
  }

  function ApplyAll(t: Tables, statements: seq<Statement>): Tables {
    if statements == [] then t
    else Apply(ApplyAll(t, statements[..|statements| - 1]), statements[|statements| - 1])
  }

  lemma StatementKeepsHistory(t: Tables, s: Statement)
    requires HistoryOwned(t) && CurrentRecorded(t)
    ensures HistoryOwned(Apply(t, s)) && CurrentRecorded(Apply(t, s)) && HistoryKept(t, Apply(t, s))
  {
  }

  /** Over any run of writes, deletes and pulls, the history only grows, and the current version of
      every row is in it. */
  lemma {:induction false} HistoryOverRuns(t: Tables, statements: seq<Statement>)
    requires HistoryOwned(t) && CurrentRecorded(t)
    ensures var t2 := ApplyAll(t, statements);
            HistoryOwned(t2) && CurrentRecorded(t2) && HistoryKept(t, t2)
  {
    hide Apply, HistoryOwned, CurrentRecorded;
    if statements != [] {
      var before := statements[..|statements| - 1];
      HistoryOverRuns(t, before);
      StatementKeepsHistory(ApplyAll(t, before), statements[|statements| - 1]);
    }
  }
}
