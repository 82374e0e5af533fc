/** Rotations as the server applies them: one request at a time, each checked against the revision it was
    built at, whoever builds them and however they cross. */
module RotationRuns {
  import opened Aead
  import opened Outcomes
  import opened Rotation
  import opened SecretCrypto

  // ---------- the stored environment ----------

  datatype Token = Token(id: string, publicKey: PublicKey, encVaultKey: Box)

  /** The rows of one environment: secrets, their kept versions, grants to people, active tokens. */
  datatype Stored = Stored(
    id: string, revision: int, secrets: seq<Row>, history: seq<Row>, grants: seq<Grant>, tokens: seq<Token>)

  function Grantees(grants: seq<Grant>): seq<string> {
    seq(|grants|, k requires 0 <= k < |grants| => grants[k].grantee)
  }

  function Machines(tokens: seq<Token>): seq<Machine> {
    seq(|tokens|, k requires 0 <= k < |tokens| => Machine(tokens[k].id, tokens[k].publicKey))
  }

  /** What a session that holds `key` sees of it. */
  function SeenWith(s: Stored, key: Key): Environment {
    Environment(s.id, key, s.revision, s.secrets, s.history, Grantees(s.grants), Machines(s.tokens))
  }

  // ---------- the statements ----------

  function SetDataKey(row: Row, key: DataKey): Row {
    if row.secret == key.secretId then Moved(row, key.encDataKey) else row
  }

  function SetHistoryKey(row: Row, key: HistoryKey): Row {
    if row.secret == key.secretId && row.version == key.version then Moved(row, key.encDataKey) else row
  }

  function SetTokenKey(token: Token, grant: Grant): Token {
    if token.id == grant.grantee then token.(encVaultKey := grant.encVaultKey) else token
  }

  /** One statement acts on every row. */
  function Updated<R, K>(rows: seq<R>, key: K, update: (R, K) -> R): seq<R> {
    seq(|rows|, i requires 0 <= i < |rows| => update(rows[i], key))
  }

  function Rekeyed<R, K>(rows: seq<R>, keys: seq<K>, update: (R, K) -> R): seq<R> {
    if keys == [] then rows
    else Updated(Rekeyed(rows, keys[..|keys| - 1], update), keys[|keys| - 1], update)
  }

  // ---------- what the server checks ----------

  datatype Refusal =
    | DuplicateUser | DuplicateToken | DuplicateVersion | OwnGrantMissing | NotAMember | Stale
    | SecretsNotCovered | VersionsNotCovered | TokensNotCovered

  predicate Distinct<T(==)>(s: seq<T>) {
    forall i, j :: 0 <= i < j < |s| ==> s[i] != s[j]
  }

  function SecretIds(keys: seq<DataKey>): seq<string> {
    seq(|keys|, k requires 0 <= k < |keys| => keys[k].secretId)
  }

  function VersionIds(keys: seq<HistoryKey>): seq<(string, int)> {
    seq(|keys|, k requires 0 <= k < |keys| => (keys[k].secretId, keys[k].version))
  }

  function RowIds(rows: seq<Row>): seq<string> {
    seq(|rows|, k requires 0 <= k < |rows| => rows[k].secret)
  }

  function RowVersions(rows: seq<Row>): seq<(string, int)> {
    seq(|rows|, k requires 0 <= k < |rows| => (rows[k].secret, rows[k].version))
  }

  function TokenIds(tokens: seq<Token>): seq<string> {
    seq(|tokens|, k requires 0 <= k < |tokens| => tokens[k].id)
  }

  function Elements<T>(s: seq<T>): set<T> {
    set x | x in s
  }

  /** Why a request by `caller` is refused, if it is; `members` are the organisation's. */
  function RefusalOf(s: Stored, caller: string, members: set<string>, request: Request): Option<Refusal> {
    var users, tokens := Grantees(request.grants), Grantees(request.machineGrants);
    if !Distinct(users) then Some(DuplicateUser)
    else if !Distinct(tokens) then Some(DuplicateToken)
    else if !Distinct(VersionIds(request.historyKeys)) then Some(DuplicateVersion)
    else if caller !in users then Some(OwnGrantMissing)
    else if !(Elements(users) <= members) then Some(NotAMember)
    else if request.baseRevision != s.revision then Some(Stale)
    else if Elements(SecretIds(request.dataKeys)) != Elements(RowIds(s.secrets)) then Some(SecretsNotCovered)
    else if Elements(VersionIds(request.historyKeys)) != Elements(RowVersions(s.history)) then Some(VersionsNotCovered)
    else if Elements(tokens) != Elements(TokenIds(s.tokens)) then Some(TokensNotCovered)
    else None
  }

  /** The rows after a request that is not refused. */
  function Applied(s: Stored, request: Request): Stored {
    Stored(
      s.id, s.revision + 1,
      Rekeyed(s.secrets, request.dataKeys, SetDataKey),
      Rekeyed(s.history, request.historyKeys, SetHistoryKey),
      request.grants,
      Rekeyed(s.tokens, request.machineGrants, SetTokenKey))
  }

  method FindDuplicate<T(==)>(s: seq<T>) returns (found: bool)
    ensures found <==> !Distinct(s)
  {
    var seen: set<T> := {};
    for k := 0 to |s|
      invariant Distinct(s[..k])
      invariant seen == Elements(s[..k])
    {
      if s[k] in seen {
        var i :| 0 <= i < k && s[..k][i] == s[k];
        assert s[i] == s[k];
        return true;
      }
      seen := seen + {s[k]};
      assert s[..k + 1] == s[..k] + [s[k]];
    }
    assert s[..|s|] == s;
    found := false;
  }

  method Rekey<R, K>(rows: seq<R>, keys: seq<K>, update: (R, K) -> R) returns (now: seq<R>)
    ensures now == Rekeyed(rows, keys, update)
  {
    now := rows;
    for k := 0 to |keys|
      invariant now == Rekeyed(rows, keys[..k], update)
    {
      now := Updated(now, keys[k], update);
      assert keys[..k + 1][..k] == keys[..k];
    }
    assert keys[..|keys|] == keys;
  }

  class Server {
    var env: Stored

    constructor (env: Stored)
      ensures this.env == env
    {
      this.env := env;
    }

    /** One transaction. */
    method Rotate(caller: string, members: set<string>, request: Request) returns (r: Result<int, Refusal>)
      modifies this
      ensures var refusal := RefusalOf(old(env), caller, members, request);
              if refusal.Some? then r == Err(refusal.value) && env == old(env)
              else env == Applied(old(env), request) && r == Ok(env.revision)
    {
      hide Distinct, Elements, Rekeyed, Grantees, SecretIds, VersionIds, RowIds, RowVersions, TokenIds;
      var users, tokens := Grantees(request.grants), Grantees(request.machineGrants);
      var versions := VersionIds(request.historyKeys);
      var twice := FindDuplicate(users);
      if twice {
        return Err(DuplicateUser);
      }
      twice := FindDuplicate(tokens);
      if twice {
        return Err(DuplicateToken);
      }
      twice := FindDuplicate(versions);
      if twice {
        return Err(DuplicateVersion);
      }
      if caller !in users {
        return Err(OwnGrantMissing);
      }
      if !(Elements(users) <= members) {
        return Err(NotAMember);
      }
      if request.baseRevision != env.revision {
        return Err(Stale);
      }
      if Elements(SecretIds(request.dataKeys)) != Elements(RowIds(env.secrets)) {
        return Err(SecretsNotCovered);
      }
      if Elements(versions) != Elements(RowVersions(env.history)) {
        return Err(VersionsNotCovered);
      }
      var history := Rekey(env.history, request.historyKeys, SetHistoryKey);
      if Elements(tokens) != Elements(TokenIds(env.tokens)) {
        return Err(TokensNotCovered);
      }
      var regranted := Rekey(env.tokens, request.machineGrants, SetTokenKey);
      var secrets := Rekey(env.secrets, request.dataKeys, SetDataKey);
      env := Stored(env.id, env.revision + 1, secrets, history, request.grants, regranted);
      r := Ok(env.revision);
    }
  }

  // ---------- one rotation ----------

  /** The primary keys of the tables. */
  predicate KeysDistinct(s: Stored) {
    && Distinct(RowIds(s.secrets)) && Distinct(RowVersions(s.history))
    && Distinct(Grantees(s.grants)) && Distinct(TokenIds(s.tokens))
  }

  predicate AnyKeyFor(keys: seq<DataKey>, id: string) {
    exists k :: 0 <= k < |keys| && keys[k].secretId == id
  }

  predicate AnyVersionKeyFor(keys: seq<HistoryKey>, id: string, version: int) {
    exists k :: 0 <= k < |keys| && keys[k].secretId == id && keys[k].version == version
  }

  predicate AnyGrantFor(grants: seq<Grant>, id: string) {
    exists k :: 0 <= k < |grants| && grants[k].grantee == id
  }

  /** Whoever built the request: it was built at this revision, names its caller among distinct members,
      and has a key for every secret, for every kept version and for every token. */
  lemma AcceptedCovers(s: Stored, caller: string, members: set<string>, request: Request)
    requires RefusalOf(s, caller, members, request).None?
    ensures request.baseRevision == s.revision
    ensures AnyGrantFor(request.grants, caller)
    ensures forall k :: 0 <= k < |request.grants| ==> request.grants[k].grantee in members
    ensures forall j, k :: 0 <= j < k < |request.grants| ==> request.grants[j].grantee != request.grants[k].grantee
    ensures forall k :: 0 <= k < |s.secrets| ==> AnyKeyFor(request.dataKeys, s.secrets[k].secret)
    ensures forall k :: 0 <= k < |s.history| ==>
              AnyVersionKeyFor(request.historyKeys, s.history[k].secret, s.history[k].version)
    ensures forall j, k :: 0 <= j < k < |request.historyKeys| ==>
              request.historyKeys[j].secretId != request.historyKeys[k].secretId
              || request.historyKeys[j].version != request.historyKeys[k].version
    ensures forall k :: 0 <= k < |s.tokens| ==> AnyGrantFor(request.machineGrants, s.tokens[k].id)
    ensures forall j, k :: 0 <= j < k < |request.machineGrants| ==>
              request.machineGrants[j].grantee != request.machineGrants[k].grantee
  {
    hide Elements, Distinct;
    var users, tokens := Grantees(request.grants), Grantees(request.machineGrants);
    var ids, versions := SecretIds(request.dataKeys), VersionIds(request.historyKeys);
    InElements(users);
    InElements(tokens);
    InElements(ids);
    InElements(versions);
    InElements(RowIds(s.secrets));
    InElements(RowVersions(s.history));
    InElements(TokenIds(s.tokens));
    DistinctAt(users);
    DistinctAt(tokens);
    DistinctAt(versions);
    forall j, k | 0 <= j < k < |request.historyKeys|
      ensures request.historyKeys[j].secretId != request.historyKeys[k].secretId
              || request.historyKeys[j].version != request.historyKeys[k].version
    {
      assert versions[j] != versions[k];
    }
    forall k | 0 <= k < |request.grants| ensures request.grants[k].grantee in members {
      assert users[k] in Elements(users);
    }
    forall k | 0 <= k < |s.secrets| ensures AnyKeyFor(request.dataKeys, s.secrets[k].secret) {
      assert RowIds(s.secrets)[k] in Elements(ids);
      var j :| 0 <= j < |ids| && ids[j] == s.secrets[k].secret;
    }
    forall k | 0 <= k < |s.history|
      ensures AnyVersionKeyFor(request.historyKeys, s.history[k].secret, s.history[k].version)
    {
      assert RowVersions(s.history)[k] in Elements(versions);
      var j :| 0 <= j < |versions| && versions[j] == (s.history[k].secret, s.history[k].version);
      assert request.historyKeys[j].secretId == s.history[k].secret;
    }
    forall k | 0 <= k < |s.tokens| ensures AnyGrantFor(request.machineGrants, s.tokens[k].id) {
      assert TokenIds(s.tokens)[k] in Elements(tokens);
      var j :| 0 <= j < |tokens| && tokens[j] == s.tokens[k].id;
    }
    forall j, k | 0 <= j < k < |request.grants| ensures request.grants[j].grantee != request.grants[k].grantee {
      assert users[j] != users[k];
    }
    forall j, k | 0 <= j < k < |request.machineGrants|
      ensures request.machineGrants[j].grantee != request.machineGrants[k].grantee
    {
      assert tokens[j] != tokens[k];
    }
  }

  lemma InElements<T>(s: seq<T>)
    ensures forall k :: 0 <= k < |s| ==> s[k] in Elements(s)
    ensures forall x :: x in Elements(s) ==> exists k :: 0 <= k < |s| && s[k] == x
  {
    assert forall x :: x in Elements(s) <==> x in s;
  }

  lemma DistinctAt<T>(s: seq<T>)
    ensures Distinct(s) <==> forall j, k :: 0 <= j < k < |s| ==> s[j] != s[k]
  {
  }

  /** Statements that each hit one row of their own. */
  ghost predicate Targeted<R, K>(rows: seq<R>, keys: seq<K>, update: (R, K) -> R) {
    && |keys| == |rows|
    && forall i, j :: 0 <= i < |rows| && 0 <= j < |keys| && i != j ==>
         update(rows[i], keys[j]) == rows[i]
         && update(update(rows[i], keys[i]), keys[j]) == update(rows[i], keys[i])
  }

  lemma {:induction false} RekeyedFirst<R, K>(rows: seq<R>, keys: seq<K>, update: (R, K) -> R, n: nat)
    requires Targeted(rows, keys, update) && n <= |keys|
    ensures var now := Rekeyed(rows, keys[..n], update);
            && |now| == |rows|
            && forall i :: 0 <= i < |rows| ==> now[i] == if i < n then update(rows[i], keys[i]) else rows[i]
  {
    if n > 0 {
      RekeyedFirst(rows, keys, update, n - 1);
      assert keys[..n][..n - 1] == keys[..n - 1];
    }
  }

  /** Each row gets its own key. */
  lemma RekeyedEach<R, K>(rows: seq<R>, keys: seq<K>, update: (R, K) -> R)
    requires Targeted(rows, keys, update)
    ensures var now := Rekeyed(rows, keys, update);
            && |now| == |rows|
            && forall i :: 0 <= i < |rows| ==> now[i] == update(rows[i], keys[i])
  {
    assert keys[..|keys|] == keys;
    RekeyedFirst(rows, keys, update, |keys|);
  }

  lemma SecretsTargeted(s: Stored, key: Key, newKey: Key, keys: seq<DataKey>)
    requires Distinct(RowIds(s.secrets)) && RewrapsSecrets(SeenWith(s, key), newKey, keys)
    ensures Targeted(s.secrets, keys, SetDataKey)
    ensures SecretIds(keys) == RowIds(s.secrets)
  {
    hide Rewrapped;
    forall i, j | 0 <= i < |s.secrets| && 0 <= j < |s.secrets| && i != j
      ensures SetDataKey(s.secrets[i], keys[j]) == s.secrets[i]
      ensures SetDataKey(SetDataKey(s.secrets[i], keys[i]), keys[j]) == SetDataKey(s.secrets[i], keys[i])
    {
      assert RowIds(s.secrets)[i] != RowIds(s.secrets)[j];
    }
  }

  lemma HistoryTargeted(s: Stored, key: Key, newKey: Key, keys: seq<HistoryKey>)
    requires Distinct(RowVersions(s.history)) && RewrapsHistory(SeenWith(s, key), newKey, keys)
    ensures Targeted(s.history, keys, SetHistoryKey)
    ensures VersionIds(keys) == RowVersions(s.history)
  {
    hide Rewrapped;
    forall i, j | 0 <= i < |s.history| && 0 <= j < |s.history| && i != j
      ensures SetHistoryKey(s.history[i], keys[j]) == s.history[i]
      ensures SetHistoryKey(SetHistoryKey(s.history[i], keys[i]), keys[j]) == SetHistoryKey(s.history[i], keys[i])
    {
      assert RowVersions(s.history)[i] != RowVersions(s.history)[j];
    }
  }

  lemma TokensTargeted(s: Stored, newKey: Key, grants: seq<Grant>)
    requires Distinct(TokenIds(s.tokens)) && GrantsMachines(newKey, Machines(s.tokens), grants)
    ensures Targeted(s.tokens, grants, SetTokenKey)
    ensures Grantees(grants) == TokenIds(s.tokens)
  {
    forall i, j | 0 <= i < |s.tokens| && 0 <= j < |s.tokens| && i != j
      ensures SetTokenKey(s.tokens[i], grants[j]) == s.tokens[i]
      ensures SetTokenKey(SetTokenKey(s.tokens[i], grants[i]), grants[j]) == SetTokenKey(s.tokens[i], grants[i])
    {
      assert TokenIds(s.tokens)[i] != TokenIds(s.tokens)[j];
    }
  }

  /** Row by row, the rotated table: the same secret and version, its data key rewrapped. */
  ghost predicate RowsRewrapped(env: Environment, newKey: Key, rows: seq<Row>, now: seq<Row>) {
    && |now| == |rows|
    && forall k :: 0 <= k < |rows| ==>
         && Rewrapped(env, newKey, rows[k]).Ok?
         && now[k] == Moved(rows[k], Rewrapped(env, newKey, rows[k]).value)
  }

  /** Every grant opens for the holder it names, by the roster, and every token's for the token. */
  ghost predicate Granted(s: Stored, roster: seq<Member>, key: Key) {
    && (forall k :: 0 <= k < |s.grants| ==>
          && KeyOnFile(roster, s.grants[k].grantee).Some?
          && Reaches(KeyOnFile(roster, s.grants[k].grantee).value, key, s.grants[k].encVaultKey))
    && (forall k :: 0 <= k < |s.tokens| ==> Reaches(s.tokens[k].publicKey, key, s.tokens[k].encVaultKey))
  }

  /** A request built from the rows as they are, applied. */
  lemma AppliedRotation(s: Stored, key: Key, roster: seq<Member>, newKey: Key, request: Request)
    requires KeysDistinct(s) && Rotates(SeenWith(s, key), roster, newKey, request)
    ensures var now := Applied(s, request);
            && RowsRewrapped(SeenWith(s, key), newKey, s.secrets, now.secrets)
            && RowsRewrapped(SeenWith(s, key), newKey, s.history, now.history)
            && Granted(now, roster, newKey)
            && Grantees(now.grants) == Grantees(s.grants) && Machines(now.tokens) == Machines(s.tokens)
  {
    hide Rewrapped, Distinct, KeyOnFile, Rekeyed, Reaches, GrantVaultKey, Moved;
    var env := SeenWith(s, key);
    SecretsTargeted(s, key, newKey, request.dataKeys);
    HistoryTargeted(s, key, newKey, request.historyKeys);
    TokensTargeted(s, newKey, request.machineGrants);
    RekeyedEach(s.secrets, request.dataKeys, SetDataKey);
    RekeyedEach(s.history, request.historyKeys, SetHistoryKey);
    RekeyedEach(s.tokens, request.machineGrants, SetTokenKey);
    forall public: PublicKey ensures Reaches(public, newKey, GrantVaultKey(public, newKey)) {
      GrantReaches(public, newKey);
    }
    assert forall k :: 0 <= k < |s.tokens| ==> Machines(s.tokens)[k].publicKey == s.tokens[k].publicKey;
  }

  // ---------- rotations that cross ----------

  /** A request, by whom, and after how many of the requests before it its builder read the rows. */
  datatype Round = Round(
    builtAt: nat, roster: seq<Member>, members: set<string>, caller: string, newKey: Key, request: Request)

  predicate Accepted(s: Stored, round: Round) {
    RefusalOf(s, round.caller, round.members, round.request).None?
  }

  function After(s: Stored, rounds: seq<Round>): Stored {
    if rounds == [] then s
    else
      var before := After(s, rounds[..|rounds| - 1]);
      var round := rounds[|rounds| - 1];
      if Accepted(before, round) then Applied(before, round.request) else before
  }

  /** The vault key the rows are under. */
  function KeyAfter(s: Stored, key: Key, rounds: seq<Round>): Key {
    if rounds == [] then key
    else
      var prior, round := rounds[..|rounds| - 1], rounds[|rounds| - 1];
      if Accepted(After(s, prior), round) then round.newKey else KeyAfter(s, key, prior)
  }

  /** Every request was built from the rows as they stood at some moment before it, with the vault key
      they were under then. */
  ghost predicate AllBuilt(s: Stored, key: Key, rounds: seq<Round>) {
    forall i :: 0 <= i < |rounds| ==>
      && rounds[i].builtAt <= i
      && Rotates(SeenWith(After(s, rounds[..rounds[i].builtAt]), KeyAfter(s, key, rounds[..rounds[i].builtAt])),
                 rounds[i].roster, rounds[i].newKey, rounds[i].request)
  }

  lemma AfterMore(s: Stored, key: Key, rounds: seq<Round>, n: nat)
    requires n < |rounds|
    ensures var before := After(s, rounds[..n]);
            if Accepted(before, rounds[n]) then
              After(s, rounds[..n + 1]) == Applied(before, rounds[n].request)
              && KeyAfter(s, key, rounds[..n + 1]) == rounds[n].newKey
            else
              After(s, rounds[..n + 1]) == before
              && KeyAfter(s, key, rounds[..n + 1]) == KeyAfter(s, key, rounds[..n])
  {
    hide Accepted, Applied;
    assert rounds[..n + 1][..n] == rounds[..n];
  }

  /** The revision tells whether anything was rotated in between. */
  lemma {:induction false} RevisionTells(s: Stored, key: Key, rounds: seq<Round>, m: nat, n: nat)
    requires m <= n <= |rounds|
    ensures After(s, rounds[..m]).revision <= After(s, rounds[..n]).revision
    ensures After(s, rounds[..m]).revision == After(s, rounds[..n]).revision ==>
              && After(s, rounds[..m]) == After(s, rounds[..n])
              && KeyAfter(s, key, rounds[..m]) == KeyAfter(s, key, rounds[..n])
    ensures (exists i :: m <= i < n && Accepted(After(s, rounds[..i]), rounds[i])) ==>
              After(s, rounds[..m]).revision < After(s, rounds[..n]).revision
  {
    hide Accepted, Rekeyed, After, KeyAfter;
    if m < n {
      RevisionTells(s, key, rounds, m, n - 1);
      AfterMore(s, key, rounds, n - 1);
    }
  }

  lemma AcceptedIsCurrent(s: Stored, round: Round)
    requires Accepted(s, round)
    ensures round.request.baseRevision == s.revision
  {
  }

  /** An accepted request was built from the very rows it is applied to. */
  lemma AcceptedBuiltHere(s: Stored, key: Key, rounds: seq<Round>, n: nat)
    requires AllBuilt(s, key, rounds) && n < |rounds| && Accepted(After(s, rounds[..n]), rounds[n])
    ensures Rotates(SeenWith(After(s, rounds[..n]), KeyAfter(s, key, rounds[..n])),
                    rounds[n].roster, rounds[n].newKey, rounds[n].request)
  {
    hide After, KeyAfter, Accepted, RewrapsSecrets, RewrapsHistory, GrantsHolders, GrantsMachines;
    AcceptedIsCurrent(After(s, rounds[..n]), rounds[n]);
    RevisionTells(s, key, rounds, rounds[n].builtAt, n);
  }

  /** Of requests built from the same rows the server takes at most one: once another has been accepted
      since a request's rows were read, it is refused. */
  lemma CrossedIsRefused(s: Stored, key: Key, rounds: seq<Round>, i: nat, n: nat)
    requires AllBuilt(s, key, rounds) && n < |rounds|
    requires rounds[n].builtAt <= i < n && Accepted(After(s, rounds[..i]), rounds[i])
    ensures !Accepted(After(s, rounds[..n]), rounds[n])
    ensures After(s, rounds[..n + 1]) == After(s, rounds[..n])
  {
    hide After, KeyAfter, Accepted, RewrapsSecrets, RewrapsHistory, GrantsHolders, GrantsMachines;
    RevisionTells(s, key, rounds, rounds[n].builtAt, n);
    AfterMore(s, key, rounds, n);
    if Accepted(After(s, rounds[..n]), rounds[n]) {
      AcceptedIsCurrent(After(s, rounds[..n]), rounds[n]);
    }
  }

  // ---------- what every run of rotations keeps ----------

  /** The same secrets and versions, reading under `key` as the old rows read under `was`. */
  ghost predicate ReadsAs(env: string, was: Key, rows: seq<Row>, key: Key, now: seq<Row>) {
    && |now| == |rows|
    && forall k :: 0 <= k < |rows| ==>
         && now[k].secret == rows[k].secret && now[k].version == rows[k].version
         && Plaintexts(key, env, now[k]) == Plaintexts(was, env, rows[k])
  }

  ghost predicate OnlyUnder(env: string, key: Key, rows: seq<Row>) {
    forall k, other: Key :: 0 <= k < |rows| && other != key ==>
      UnwrapDataKey(other, PlaceOf(env, rows[k]), rows[k].enc.encDataKey).Err?
  }

  lemma RewrappedReads(env: Environment, newKey: Key, was: Key, first: seq<Row>, rows: seq<Row>, now: seq<Row>)
    requires RowsRewrapped(env, newKey, rows, now) && ReadsAs(env.id, was, first, env.vaultKey, rows)
    ensures ReadsAs(env.id, was, first, newKey, now) && OnlyUnder(env.id, newKey, now)
  {
    hide Rewrapped, Plaintexts, UnwrapDataKey;
    forall k | 0 <= k < |rows|
      ensures KeepsRow(env, newKey, rows[k], now[k])
    {
      RowKept(env, newKey, rows[k], Rewrapped(env, newKey, rows[k]).value);
    }
    forall k, other: Key | 0 <= k < |now| && other != newKey
      ensures UnwrapDataKey(other, PlaceOf(env.id, now[k]), now[k].enc.encDataKey).Err?
    {
      assert KeepsRow(env, newKey, rows[k], now[k]) && PlaceOf(env.id, now[k]) == PlaceOf(env.id, rows[k]);
    }
  }

  lemma KeysStayDistinct(s: Stored, key: Key, newKey: Key, now: Stored)
    requires KeysDistinct(s)
    requires RowsRewrapped(SeenWith(s, key), newKey, s.secrets, now.secrets)
    requires RowsRewrapped(SeenWith(s, key), newKey, s.history, now.history)
    requires Grantees(now.grants) == Grantees(s.grants) && Machines(now.tokens) == Machines(s.tokens)
    ensures KeysDistinct(now)
  {
    hide Rewrapped, Distinct;
    assert RowIds(now.secrets) == RowIds(s.secrets) && RowVersions(now.history) == RowVersions(s.history);
    assert |Machines(now.tokens)| == |now.tokens| && |Machines(s.tokens)| == |s.tokens|;
    assert forall k :: 0 <= k < |s.tokens| ==>
      Machines(s.tokens)[k].tokenId == s.tokens[k].id && Machines(now.tokens)[k].tokenId == now.tokens[k].id;
    assert TokenIds(now.tokens) == TokenIds(s.tokens);
  }

  /** What a run has kept of the environment `s` it began with. */
  ghost predicate Kept(s: Stored, key: Key, now: Stored, newKey: Key) {
    && now.id == s.id && KeysDistinct(now)
    && ReadsAs(s.id, key, s.secrets, newKey, now.secrets)
    && ReadsAs(s.id, key, s.history, newKey, now.history)
    && Grantees(now.grants) == Grantees(s.grants) && Machines(now.tokens) == Machines(s.tokens)
  }

  lemma KeptByRound(s: Stored, key: Key, mid: Stored, midKey: Key, roster: seq<Member>, newKey: Key, request: Request)
    requires Kept(s, key, mid, midKey) && Rotates(SeenWith(mid, midKey), roster, newKey, request)
    ensures var now := Applied(mid, request);
            && Kept(s, key, now, newKey) && Granted(now, roster, newKey)
            && OnlyUnder(s.id, newKey, now.secrets) && OnlyUnder(s.id, newKey, now.history)
  {
    hide RowsRewrapped, ReadsAs, OnlyUnder, Granted, Rotates, KeysDistinct, Rekeyed;
    var now := Applied(mid, request);
    AppliedRotation(mid, midKey, roster, newKey, request);
    RewrappedReads(SeenWith(mid, midKey), newKey, key, s.secrets, mid.secrets, now.secrets);
    RewrappedReads(SeenWith(mid, midKey), newKey, key, s.history, mid.history, now.history);
    KeysStayDistinct(mid, midKey, newKey, now);
  }

  /** However many rotations are posted, and whatever others crossed them while they were built: every
      current and past version reads under the newest key as it read at first, and the same people and
      machines hold grants. */
  lemma {:induction false} RotationsKeepPlaintexts(s: Stored, key: Key, rounds: seq<Round>, n: nat)
    requires KeysDistinct(s) && AllBuilt(s, key, rounds) && n <= |rounds|
    ensures Kept(s, key, After(s, rounds[..n]), KeyAfter(s, key, rounds[..n]))
  {
    hide AllBuilt, KeysDistinct, Plaintexts, Rotates, Accepted, Applied;
    if n > 0 {
      RotationsKeepPlaintexts(s, key, rounds, n - 1);
      AfterMore(s, key, rounds, n - 1);
      var before := After(s, rounds[..n - 1]);
      if Accepted(before, rounds[n - 1]) {
        hide Kept;
        AcceptedBuiltHere(s, key, rounds, n - 1);
        KeptByRound(s, key, before, KeyAfter(s, key, rounds[..n - 1]),
                    rounds[n - 1].roster, rounds[n - 1].newKey, rounds[n - 1].request);
      }
    } else {
      assert rounds[..0] == [];
    }
  }

  /** Once a rotation is accepted, and whatever is refused after it: no key but its own unwraps any row,
      and every holder and machine has a grant it alone opens, to that key. */
  lemma {:induction false} LastRotationHolds(s: Stored, key: Key, rounds: seq<Round>, i: nat, n: nat)
    requires KeysDistinct(s) && AllBuilt(s, key, rounds) && i < n <= |rounds|
    requires Accepted(After(s, rounds[..i]), rounds[i])
    requires forall j :: i < j < n ==> !Accepted(After(s, rounds[..j]), rounds[j])
    ensures KeyAfter(s, key, rounds[..n]) == rounds[i].newKey
    ensures var now := After(s, rounds[..n]);
            && OnlyUnder(s.id, rounds[i].newKey, now.secrets) && OnlyUnder(s.id, rounds[i].newKey, now.history)
            && Granted(now, rounds[i].roster, rounds[i].newKey)
  {
    hide AllBuilt, KeysDistinct, Kept, OnlyUnder, Granted, Rotates, Accepted, Applied;
    AfterMore(s, key, rounds, n - 1);
    if i == n - 1 {
      RotationsKeepPlaintexts(s, key, rounds, i);
      AcceptedBuiltHere(s, key, rounds, i);
      KeptByRound(s, key, After(s, rounds[..i]), KeyAfter(s, key, rounds[..i]),
                  rounds[i].roster, rounds[i].newKey, rounds[i].request);
    } else {
      LastRotationHolds(s, key, rounds, i, n - 1);
    }
  }

  // ---------- rows as they were written ----------

  datatype Content = Content(dataKey: Key, name: Bytes, value: Bytes)

  function WrittenAs(key: Key, p: Place, c: Content): EncryptedSecret {
    EncryptSecret(key, c.dataKey, p, c.name, c.value)
  }

  /** Rows as they stand when each was written under this vault key. */
  ghost predicate Written(env: string, key: Key, rows: seq<Row>, contents: seq<Content>) {
    && |contents| == |rows|
    && forall k :: 0 <= k < |rows| ==>
         IsPlace(PlaceOf(env, rows[k])) && rows[k].enc == WrittenAs(key, PlaceOf(env, rows[k]), contents[k])
  }

  lemma RewrapsWritten(oldKey: Key, newKey: Key, p: Place, c: Content)
    requires IsPlace(p)
    ensures RewrapDataKey(oldKey, newKey, p, WrittenAs(oldKey, p, c).encDataKey) ==
            Ok(WrittenAs(newKey, p, c).encDataKey)
    ensures WrittenAs(oldKey, p, c).(encDataKey := WrittenAs(newKey, p, c).encDataKey) == WrittenAs(newKey, p, c)
  {
    hide IsPlace;
    UnwrapsInPlace(oldKey, c.dataKey, p, oldKey, p);
  }

  lemma RewrappedWritten(env: Environment, newKey: Key, rows: seq<Row>, now: seq<Row>, contents: seq<Content>)
    requires Written(env.id, env.vaultKey, rows, contents) && RowsRewrapped(env, newKey, rows, now)
    ensures Written(env.id, newKey, now, contents)
  {
    hide RewrapDataKey, WrittenAs, IsPlace;
    forall k | 0 <= k < |rows|
      ensures IsPlace(PlaceOf(env.id, now[k])) && now[k].enc == WrittenAs(newKey, PlaceOf(env.id, now[k]), contents[k])
    {
      RewrapsWritten(env.vaultKey, newKey, PlaceOf(env.id, rows[k]), contents[k]);
    }
  }

  /** After any run of rotations, every row is exactly as if it had been written under the newest key. */
  lemma {:induction false} RotationsKeepWritten(s: Stored, key: Key, rounds: seq<Round>, n: nat,
                                                secrets: seq<Content>, history: seq<Content>)
    requires KeysDistinct(s) && AllBuilt(s, key, rounds) && n <= |rounds|
    requires Written(s.id, key, s.secrets, secrets) && Written(s.id, key, s.history, history)
    ensures var now, newest := After(s, rounds[..n]), KeyAfter(s, key, rounds[..n]);
            && now.id == s.id
            && Written(s.id, newest, now.secrets, secrets) && Written(s.id, newest, now.history, history)
  {
    hide AllBuilt, KeysDistinct, Rotates, Accepted, Written, RowsRewrapped, Granted, Rekeyed, ReadsAs;
    if n > 0 {
      var before, was := After(s, rounds[..n - 1]), KeyAfter(s, key, rounds[..n - 1]);
      var round := rounds[n - 1];
      RotationsKeepWritten(s, key, rounds, n - 1, secrets, history);
      AfterMore(s, key, rounds, n - 1);
      if Accepted(before, round) {
        RotationsKeepPlaintexts(s, key, rounds, n - 1);
        AcceptedBuiltHere(s, key, rounds, n - 1);
        AppliedRotation(before, was, round.roster, round.newKey, round.request);
        var now := Applied(before, round.request);
        RewrappedWritten(SeenWith(before, was), round.newKey, before.secrets, now.secrets, secrets);
        RewrappedWritten(SeenWith(before, was), round.newKey, before.history, now.history, history);
      }
    } else {
      assert rounds[..0] == [];
    }
  }

  /** So a secret written under the first key reads, after any run, under the newest key at its own place
      and nowhere else. */
  lemma ReadsAfterRotations(s: Stored, key: Key, rounds: seq<Round>, secrets: seq<Content>, history: seq<Content>,
                            k: nat, reader: Key, q: Place)
    requires KeysDistinct(s) && AllBuilt(s, key, rounds) && k < |s.secrets| && IsPlace(q)
    requires Written(s.id, key, s.secrets, secrets) && Written(s.id, key, s.history, history)
    ensures var now, newest := After(s, rounds), KeyAfter(s, key, rounds);
            && |now.secrets| == |s.secrets|
            && DecryptSecret(reader, q, now.secrets[k].enc) ==
               if reader == newest && q == PlaceOf(s.id, s.secrets[k]) then Ok((secrets[k].name, secrets[k].value))
               else Err(Crypto)
  {
    hide AllBuilt, KeysDistinct, DecryptSecret, IsPlace, After, KeyAfter, EncryptSecret, Plaintexts;
    assert rounds[..|rounds|] == rounds;
    RotationsKeepPlaintexts(s, key, rounds, |rounds|);
    RotationsKeepWritten(s, key, rounds, |rounds|, secrets, history);
    var now, c := After(s, rounds).secrets[k], secrets[k];
    ReadsWhereWritten(KeyAfter(s, key, rounds), c.dataKey, PlaceOf(s.id, now), c.name, c.value, reader, q);
  }

  // ---------- a rotation can always be made ----------

  /** An environment of written rows can be rotated as soon as every holder has a key on file. */
  lemma WrittenCanRotate(s: Stored, key: Key, roster: seq<Member>, secrets: seq<Content>, history: seq<Content>)
    requires Written(s.id, key, s.secrets, secrets) && Written(s.id, key, s.history, history)
    ensures CanRotate(SeenWith(s, key), roster) <==> AllHaveKeys(roster, Grantees(s.grants))
  {
    hide UnwrapDataKey, IsPlace, AllHaveKeys;
    forall k | 0 <= k < |s.secrets| ensures Readable(SeenWith(s, key), s.secrets[k]) {
      UnwrapsInPlace(key, secrets[k].dataKey, PlaceOf(s.id, s.secrets[k]), key, PlaceOf(s.id, s.secrets[k]));
    }
    forall k | 0 <= k < |s.history| ensures Readable(SeenWith(s, key), s.history[k]) {
      UnwrapsInPlace(key, history[k].dataKey, PlaceOf(s.id, s.history[k]), key, PlaceOf(s.id, s.history[k]));
    }
  }

  /** A request built from the rows as they are is accepted exactly when its caller holds a grant and every
      holder is still a member. */
  lemma CurrentIsAccepted(s: Stored, key: Key, round: Round)
    requires KeysDistinct(s) && Rotates(SeenWith(s, key), round.roster, round.newKey, round.request)
    ensures Accepted(s, round) <==>
            round.caller in Grantees(s.grants) && Elements(Grantees(s.grants)) <= round.members
  {
    hide Rewrapped, Distinct, Elements, KeyOnFile, Reaches;
    SecretsTargeted(s, key, round.newKey, round.request.dataKeys);
    HistoryTargeted(s, key, round.newKey, round.request.historyKeys);
    TokensTargeted(s, round.newKey, round.request.machineGrants);
    assert Grantees(round.request.grants) == Grantees(s.grants);
  }
}
