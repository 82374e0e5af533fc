/** What each statement of the local store does to a row, what a pull makes readable, and what a row
    holds after any run. */
module StoreRuns {
  import opened Aead
  import opened LocalStore
  import opened LocalVault
  import opened Outcomes
  import opened SecretCrypto
  import Utf8

  // ---------- one statement ----------

  /** The row a statement is about. */
  function Target(s: Statement): string {
    match s
    case Insert(id, _, _) => id
    case Update(id, _, _) => id
    case Delete(id) => id
    case Pull(_, secret) => secret.id
  }

  /** The statement is not refused. */
  predicate Succeeds(t: Tables, s: Statement) {
    match s
    case Insert(id, env, _) => id !in t.secrets && HasEnv(t, env) && (id, 1) !in t.versions
    case Update(id, version, _) =>
      id in t.secrets && version == t.secrets[id].version + 1 && (id, version) !in t.versions
    case Delete(id) => id in t.secrets && !t.secrets[id].deleted
    case Pull(env, _) => HasEnv(t, env)
  }

  /** Field by field, what a statement that is not refused makes of its row. */
  ghost predicate Leaves(t: Tables, s: Statement, row: Row) {
    match s
    case Insert(_, env, enc) => row.env == env && row.enc == enc && row.version == 1 && !row.deleted
    case Update(id, version, enc) =>
      id in t.secrets && row.env == t.secrets[id].env && row.enc == enc && row.version == version && !row.deleted
    case Delete(id) =>
      && id in t.secrets && row.env == t.secrets[id].env && row.enc == t.secrets[id].enc
      && row.version == t.secrets[id].version && row.deleted
    case Pull(env, secret) =>
      row.env == env && row.enc == secret.enc && row.version == secret.version && row.deleted == secret.deleted
  }

  /** A statement that is refused changes nothing; any other leaves its own row as it says, every other
      row, every environment and all of history as they were, and the row's version in history. */
  lemma StatementEffect(t: Tables, s: Statement)
    ensures !Succeeds(t, s) ==> Apply(t, s) == t
    ensures Succeeds(t, s) ==>
              var t2 := Apply(t, s);
              && t2.secrets.Keys == t.secrets.Keys + {Target(s)}
              && Leaves(t, s, t2.secrets[Target(s)])
              && (forall id :: id in t.secrets && id != Target(s) ==> t2.secrets[id] == t.secrets[id])
              && t2.environments == t.environments
              && HistoryKept(t, t2)
              && (forall k :: k in t2.versions && k !in t.versions ==>
                    k == (Target(s), t2.secrets[Target(s)].version)
                    && t2.versions[k] == t2.secrets[Target(s)].enc)
              && (!s.Delete? ==> (Target(s), t2.secrets[Target(s)].version) in t2.versions)
  {
  }

  /** What a statement is answered: done exactly when it succeeds, and otherwise why not. */
  lemma StatementAnswer(t: Tables, s: Statement)
    ensures var o := match s
              case Insert(id, env, enc) => Settled(t, Inserted(t, id, env, enc)).1
              case Update(id, version, enc) => Settled(t, Updated(t, id, version, enc)).1
              case Delete(id) => Settled(t, Tombstoned(t, id)).1
              case Pull(env, secret) => Settled(t, Pulled(t, env, secret)).1;
            && (o == Done <==> Succeeds(t, s))
            && (!Succeeds(t, s) ==>
                  match s
                  case Insert(_, _, _) => o == Failed(Storage)
                  case Update(id, version, _) =>
                    o == Failed(if id !in t.secrets then NotFound
                                else if version != t.secrets[id].version + 1 then Conflict
                                else Storage)
                  case Delete(_) => o == Failed(NotFound)
                  case Pull(_, _) => o == Failed(Storage))
  {
  }

  // ---------- a pull ----------

  /** A pull succeeds for a known environment. The row then holds what the server sent, and nothing else
      changes but the entry in history, if there was none. */
  lemma PullReplaces(t: Tables, env: string, s: SyncSecret)
    requires HasEnv(t, env)
    ensures var t2 := Apply(t, Pull(env, s));
            && Settled(t, Pulled(t, env, s)) == (t2, Done)
            && s.id in t2.secrets
            && t2.secrets[s.id].env == env && t2.secrets[s.id].enc == s.enc
            && t2.secrets[s.id].version == s.version && t2.secrets[s.id].deleted == s.deleted
            && (forall id :: id != s.id ==> (id in t2.secrets <==> id in t.secrets))
            && (forall id :: id in t.secrets && id != s.id ==> t2.secrets[id] == t.secrets[id])
            && (s.id, s.version) in t2.versions
            && HistoryKept(t, t2)
  {
    StatementEffect(t, Pull(env, s));
  }

  /** A pulled tombstone is in no live listing; a pulled live secret written for its own place is in its
      environment's, and reads as its name and value. */
  lemma PullReads(t: Tables, u: Unlocked, s: SyncSecret, name: string, value: Bytes, dataKey: Key)
    requires HasEnv(t, u.env) && IsPlace(Place(u.env, s.id, s.version))
    requires s.enc == EncryptSecret(u.key, dataKey, Place(u.env, s.id, s.version), Utf8.Encode(name), value)
    ensures var t2 := Apply(t, Pull(u.env, s));
            && (s.deleted ==> forall env, row :: !Listed(t2, env, false, SecretRow(s.id, row)))
            && (!s.deleted ==>
                  var row := SecretRow(s.id, t2.secrets[s.id]);
                  Named(t2, u, false, name, row) && ValueOf(u, row) == Some(value))
  {
    hide EncryptSecret, IsPlace, DecryptName, DecryptValue, DecryptSecret;
    PullReplaces(t, u.env, s);
    ReadsWhereWritten(u.key, dataKey, Place(u.env, s.id, s.version), Utf8.Encode(name), value,
                      u.key, Place(u.env, s.id, s.version));
    Utf8.RoundTrip(name);
  }

  /** Nothing but the pulled row carries the name, and every live row can be read. */
  ghost predicate OnlyOwner(t: Tables, u: Unlocked, name: string, id: string) {
    forall r :: Listed(t, u.env, false, r) && r.id != id ==> NameOf(u, r).Some? && NameOf(u, r) != Some(name)
  }

  /** So asking for its name gives the value pulled, or after a tombstone that there is none. */
  lemma PullThenGet(t: Tables, u: Unlocked, s: SyncSecret, name: string, value: Bytes, dataKey: Key,
                    r: Result<Bytes, VaultError>)
    requires HasEnv(t, u.env) && IsPlace(Place(u.env, s.id, s.version))
    requires s.enc == EncryptSecret(u.key, dataKey, Place(u.env, s.id, s.version), Utf8.Encode(name), value)
    requires OnlyOwner(t, u, name, s.id)
    requires Gets(Apply(t, Pull(u.env, s)), u, name, r)
    ensures r == if s.deleted then Err(NotFound) else Ok(value)
  {
    hide NameOf, ValueOf, EncryptSecret, IsPlace, Apply;
    PullReplaces(t, u.env, s);
    PullReads(t, u, s, name, value, dataKey);
    var t2 := Apply(t, Pull(u.env, s));
    assert forall row :: Listed(t2, u.env, false, row) && row.id != s.id ==> Listed(t, u.env, false, row);
    if s.deleted {
      assert forall row :: Listed(t2, u.env, false, row) ==> row == SecretRow(row.id, row.row);
    } else {
      var own := SecretRow(s.id, t2.secrets[s.id]);
      assert forall row :: Listed(t2, u.env, false, row) && row.id == s.id ==> row == own;
      assert Listed(t2, u.env, false, own);
    }
  }

  // ---------- whole runs ----------

  /** The last statement on the row that was not refused. */
  ghost predicate LastOn(t: Tables, statements: seq<Statement>, k: nat, id: string) {
    && k < |statements|
    && Target(statements[k]) == id && Succeeds(ApplyAll(t, statements[..k]), statements[k])
    && forall j :: k < j < |statements| ==>
         !(Target(statements[j]) == id && Succeeds(ApplyAll(t, statements[..j]), statements[j]))
  }

  lemma ApplyAllMore(t: Tables, statements: seq<Statement>, k: nat)
    requires k < |statements|
    ensures ApplyAll(t, statements[..k + 1]) == Apply(ApplyAll(t, statements[..k]), statements[k])
  {
    assert statements[..k + 1][..k] == statements[..k];
  }

  /** A row no statement took hold of is as it was. */
  lemma {:induction false} RowUntouched(t: Tables, statements: seq<Statement>, m: nat, n: nat, id: string)
    requires m <= n <= |statements|
    requires forall j :: m <= j < n ==>
               !(Target(statements[j]) == id && Succeeds(ApplyAll(t, statements[..j]), statements[j]))
    ensures var before, after := ApplyAll(t, statements[..m]).secrets, ApplyAll(t, statements[..n]).secrets;
            (id in after <==> id in before) && (id in before ==> after[id] == before[id])
  {
    hide Apply, Succeeds, Leaves, HistoryKept;
    if m < n {
      RowUntouched(t, statements, m, n - 1, id);
      ApplyAllMore(t, statements, n - 1);
      StatementEffect(ApplyAll(t, statements[..n - 1]), statements[n - 1]);
    }
  }

  /** After any run of inserts, updates, deletes and pulls a row is what the last statement that took
      hold of it left; so it is deleted exactly when that was a delete, or a pull of a tombstone. */
  lemma RowOverRuns(t: Tables, statements: seq<Statement>, k: nat, id: string)
    requires LastOn(t, statements, k, id)
    ensures var row := ApplyAll(t, statements).secrets;
            && id in row
            && Leaves(ApplyAll(t, statements[..k]), statements[k], row[id])
            && (row[id].deleted <==>
                  statements[k].Delete? || (statements[k].Pull? && statements[k].secret.deleted))
  {
    hide Apply, ApplyAll, Succeeds, HistoryKept;
    assert statements[..|statements|] == statements;
    ApplyAllMore(t, statements, k);
    StatementEffect(ApplyAll(t, statements[..k]), statements[k]);
    RowUntouched(t, statements, k + 1, |statements|, id);
  }
}
