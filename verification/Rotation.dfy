/** Rotating an environment's vault key: every data key rewrapped, the new key granted again to
    everyone who held the old one. */
module Rotation {
  import opened Aead
  import opened Outcomes
  import opened SecretCrypto

  /** One stored version of a secret, current or past. */
  datatype Row = Row(secret: string, version: int, enc: EncryptedSecret)
  datatype Member = Member(userId: string, publicKey: Option<PublicKey>)
  datatype Machine = Machine(tokenId: string, publicKey: PublicKey)

  /** An environment as the server answers for it, and the vault key this session holds. */
  datatype Environment = Environment(
    id: string, vaultKey: Key, revision: int,
    secrets: seq<Row>, history: seq<Row>, holders: seq<string>, machines: seq<Machine>)

  datatype DataKey = DataKey(secretId: string, encDataKey: Blob)
  datatype HistoryKey = HistoryKey(secretId: string, version: int, encDataKey: Blob)
  datatype Grant = Grant(grantee: string, encVaultKey: Box)

  datatype Request = Request(
    baseRevision: int, grants: seq<Grant>, dataKeys: seq<DataKey>,
    machineGrants: seq<Grant>, historyKeys: seq<HistoryKey>)

  datatype RotateError = NotInOrganisation | Unreadable(error: CryptoError) | NoPublicKey(holder: string)

  function PlaceOf(env: string, row: Row): Place {
    Place(env, row.secret, row.version)
  }

  function Rewrapped(env: Environment, newKey: Key, row: Row): Result<Blob, CryptoError> {
    RewrapDataKey(env.vaultKey, newKey, PlaceOf(env.id, row), row.enc.encDataKey)
  }

  predicate Readable(env: Environment, row: Row) {
    UnwrapDataKey(env.vaultKey, PlaceOf(env.id, row), row.enc.encDataKey).Ok?
  }

  /** The first member with this id. */
  function FindMember(roster: seq<Member>, id: string): (m: Option<Member>)
    ensures m.Some? ==> m.value in roster && m.value.userId == id
    ensures m.None? ==> forall k :: 0 <= k < |roster| ==> roster[k].userId != id
  {
    if roster == [] then None
    else if roster[0].userId == id then Some(roster[0])
    else FindMember(roster[1..], id)
  }

  function KeyOnFile(roster: seq<Member>, holder: string): Option<PublicKey> {
    match FindMember(roster, holder)
    case None => None
    case Some(m) => m.publicKey
  }

  /** Every row's data key under the new vault key, or the first failure. */
  function RewrapRows(env: Environment, newKey: Key, rows: seq<Row>): (r: Result<seq<Blob>, CryptoError>)
    ensures r.Ok? <==> forall k :: 0 <= k < |rows| ==> Readable(env, rows[k])
    ensures r.Ok? ==> |r.value| == |rows|
    ensures r.Ok? ==> forall k :: 0 <= k < |rows| ==> Rewrapped(env, newKey, rows[k]) == Ok(r.value[k])
  {
    if rows == [] then Ok([])
    else
      match Rewrapped(env, newKey, rows[0])
      case Err(e) => Err(e)
      case Ok(blob) =>
        match RewrapRows(env, newKey, rows[1..])
        case Err(e) => Err(e)
        case Ok(rest) => Ok([blob] + rest)
  }

  // ---------- what a rotation must do ----------

  predicate AllReadable(env: Environment, rows: seq<Row>) {
    forall k :: 0 <= k < |rows| ==> Readable(env, rows[k])
  }

  predicate AllHaveKeys(roster: seq<Member>, holders: seq<string>) {
    forall k :: 0 <= k < |holders| ==> KeyOnFile(roster, holders[k]).Some?
  }

  predicate CanRotate(env: Environment, roster: seq<Member>) {
    AllReadable(env, env.secrets) && AllReadable(env, env.history) && AllHaveKeys(roster, env.holders)
  }

  /** One rewrapped key for every current row, in their order. */
  predicate RewrapsSecrets(env: Environment, newKey: Key, keys: seq<DataKey>) {
    && |keys| == |env.secrets|
    && forall k :: 0 <= k < |keys| ==>
         && keys[k].secretId == env.secrets[k].secret
         && Rewrapped(env, newKey, env.secrets[k]) == Ok(keys[k].encDataKey)
  }

  predicate RewrapsHistory(env: Environment, newKey: Key, keys: seq<HistoryKey>) {
    && |keys| == |env.history|
    && forall k :: 0 <= k < |keys| ==>
         && keys[k].secretId == env.history[k].secret && keys[k].version == env.history[k].version
         && Rewrapped(env, newKey, env.history[k]) == Ok(keys[k].encDataKey)
  }

  predicate GrantsHolders(roster: seq<Member>, newKey: Key, holders: seq<string>, grants: seq<Grant>) {
    && |grants| == |holders|
    && forall k :: 0 <= k < |grants| ==>
         && grants[k].grantee == holders[k]
         && KeyOnFile(roster, holders[k]).Some?
         && grants[k].encVaultKey == GrantVaultKey(KeyOnFile(roster, holders[k]).value, newKey)
  }

  predicate GrantsMachines(newKey: Key, machines: seq<Machine>, grants: seq<Grant>) {
    && |grants| == |machines|
    && forall k :: 0 <= k < |grants| ==>
         grants[k] == Grant(machines[k].tokenId, GrantVaultKey(machines[k].publicKey, newKey))
  }

  predicate Rotates(env: Environment, roster: seq<Member>, newKey: Key, request: Request) {
    && request.baseRevision == env.revision
    && RewrapsSecrets(env, newKey, request.dataKeys)
    && RewrapsHistory(env, newKey, request.historyKeys)
    && GrantsHolders(roster, newKey, env.holders, request.grants)
    && GrantsMachines(newKey, env.machines, request.machineGrants)
  }

  method DataKeys(env: Environment, newKey: Key) returns (r: Result<seq<DataKey>, RotateError>)
    ensures r.Ok? <==> AllReadable(env, env.secrets)
    ensures r.Ok? ==> RewrapsSecrets(env, newKey, r.value)
    ensures r.Err? ==> r.error.Unreadable?
  {
    hide Rewrapped, Readable;
    var blobs := RewrapRows(env, newKey, env.secrets);
    if blobs.Err? {
      return Err(Unreadable(blobs.error));
    }
    r := Ok(seq(|env.secrets|, k requires 0 <= k < |env.secrets| && |blobs.value| == |env.secrets| =>
                  DataKey(env.secrets[k].secret, blobs.value[k])));
  }

  method HistoryKeys(env: Environment, newKey: Key) returns (r: Result<seq<HistoryKey>, RotateError>)
    ensures r.Ok? <==> AllReadable(env, env.history)
    ensures r.Ok? ==> RewrapsHistory(env, newKey, r.value)
    ensures r.Err? ==> r.error.Unreadable?
  {
    hide Rewrapped, Readable;
    var blobs := RewrapRows(env, newKey, env.history);
    if blobs.Err? {
      return Err(Unreadable(blobs.error));
    }
    r := Ok(seq(|env.history|, k requires 0 <= k < |env.history| && |blobs.value| == |env.history| =>
                  HistoryKey(env.history[k].secret, env.history[k].version, blobs.value[k])));
  }

  method GrantHolders(roster: seq<Member>, holders: seq<string>, newKey: Key)
    returns (r: Result<seq<Grant>, RotateError>)
    ensures r.Ok? <==> AllHaveKeys(roster, holders)
    ensures r.Ok? ==> GrantsHolders(roster, newKey, holders, r.value)
    ensures r.Err? ==> r.error.NoPublicKey? && r.error.holder in holders
    ensures r.Err? ==> KeyOnFile(roster, r.error.holder).None?
  {
    var grants: seq<Grant> := [];
    for k := 0 to |holders|
      invariant AllHaveKeys(roster, holders[..k])
      invariant GrantsHolders(roster, newKey, holders[..k], grants)
    {
      var m := FindMember(roster, holders[k]);
      if m.None? || m.value.publicKey.None? {
        assert KeyOnFile(roster, holders[k]).None?;
        return Err(NoPublicKey(holders[k]));
      }
      grants := grants + [Grant(holders[k], GrantVaultKey(m.value.publicKey.value, newKey))];
    }
    assert holders[..|holders|] == holders;
    r := Ok(grants);
  }

  /** The request a rotation posts. `members` is the roster if it has loaded, `fetched` what fetching
      it would give (nothing for an environment outside an organisation), `newKey` the random key. */
  method RotateEnv(env: Environment, members: Option<seq<Member>>, fetched: Option<seq<Member>>, newKey: Key)
    returns (r: Result<Request, RotateError>)
    ensures members.None? && fetched.None? ==> r == Err(NotInOrganisation)
    ensures members.Some? || fetched.Some? ==>
              var roster := if members.Some? then members.value else fetched.value;
              && (r.Ok? <==> CanRotate(env, roster))
              && (r.Ok? ==> Rotates(env, roster, newKey, r.value))
              && (r.Err? && r.error.NoPublicKey? ==>
                    r.error.holder in env.holders && KeyOnFile(roster, r.error.holder).None?)
  {
    hide AllReadable, AllHaveKeys, RewrapsSecrets, RewrapsHistory, GrantsHolders, KeyOnFile;
    var known := members;
    if known.None? {
      if fetched.None? {
        return Err(NotInOrganisation);
      }
      known := fetched;
    }
    var roster := known.value;
    var dataKeys := DataKeys(env, newKey);
    if dataKeys.Err? {
      return Err(dataKeys.error);
    }
    var historyKeys := HistoryKeys(env, newKey);
    if historyKeys.Err? {
      return Err(historyKeys.error);
    }
    var grants := GrantHolders(roster, env.holders, newKey);
    if grants.Err? {
      return Err(grants.error);
    }
    var machineGrants := seq(|env.machines|, k requires 0 <= k < |env.machines| =>
                               Grant(env.machines[k].tokenId, GrantVaultKey(env.machines[k].publicKey, newKey)));
    r := Ok(Request(env.revision, grants.value, dataKeys.value, machineGrants, historyKeys.value));
  }

  // ---------- what a rotation achieves ----------

  /** A row with its data key replaced by a rewrapped one. */
  function Moved(row: Row, encDataKey: Blob): Row {
    row.(enc := row.enc.(encDataKey := encDataKey))
  }

  function Plaintexts(key: Key, env: string, row: Row): Result<(Bytes, Bytes), CryptoError> {
    DecryptSecret(key, PlaceOf(env, row), row.enc)
  }

  /** The row says under the new key what it said under the old, and no other key unwraps it. */
  ghost predicate KeepsRow(env: Environment, newKey: Key, row: Row, moved: Row) {
    && Plaintexts(newKey, env.id, moved) == Plaintexts(env.vaultKey, env.id, row)
    && forall key: Key :: key != newKey ==>
         UnwrapDataKey(key, PlaceOf(env.id, row), moved.enc.encDataKey).Err?
  }

  /** Only the secret behind this public key opens the grant, and it gives the new key. */
  ghost predicate Reaches(public: PublicKey, newKey: Key, grant: Box) {
    forall secret: Key ::
      OpenVaultKey(KeypairFromSecret(secret), grant) == if PublicOf(secret) == public then Ok(newKey) else Err(Crypto)
  }

  lemma RowKept(env: Environment, newKey: Key, row: Row, blob: Blob)
    requires Rewrapped(env, newKey, row) == Ok(blob)
    ensures KeepsRow(env, newKey, row, Moved(row, blob))
  {
  }

  lemma GrantReaches(public: PublicKey, newKey: Key)
    ensures Reaches(public, newKey, GrantVaultKey(public, newKey))
  {
  }

  /** After a rotation every current and past plaintext reads under the new key as it read before, no
      other key unwraps any of them, and every holder and machine has a grant it alone opens, to the
      new key. */
  lemma RotationKeepsEverything(env: Environment, roster: seq<Member>, newKey: Key, request: Request)
    requires Rotates(env, roster, newKey, request)
    ensures forall k :: 0 <= k < |env.secrets| ==>
              KeepsRow(env, newKey, env.secrets[k], Moved(env.secrets[k], request.dataKeys[k].encDataKey))
    ensures forall k :: 0 <= k < |env.history| ==>
              KeepsRow(env, newKey, env.history[k], Moved(env.history[k], request.historyKeys[k].encDataKey))
    ensures forall k :: 0 <= k < |env.holders| ==>
              && request.grants[k].grantee == env.holders[k]
              && Reaches(KeyOnFile(roster, env.holders[k]).value, newKey, request.grants[k].encVaultKey)
    ensures forall k :: 0 <= k < |env.machines| ==>
              && request.machineGrants[k].grantee == env.machines[k].tokenId
              && Reaches(env.machines[k].publicKey, newKey, request.machineGrants[k].encVaultKey)
  {
    forall k | 0 <= k < |env.secrets|
      ensures KeepsRow(env, newKey, env.secrets[k], Moved(env.secrets[k], request.dataKeys[k].encDataKey))
    {
      RowKept(env, newKey, env.secrets[k], request.dataKeys[k].encDataKey);
    }
    forall k | 0 <= k < |env.history|
      ensures KeepsRow(env, newKey, env.history[k], Moved(env.history[k], request.historyKeys[k].encDataKey))
    {
      RowKept(env, newKey, env.history[k], request.historyKeys[k].encDataKey);
    }
    forall k | 0 <= k < |env.holders|
      ensures Reaches(KeyOnFile(roster, env.holders[k]).value, newKey, request.grants[k].encVaultKey)
    {
      GrantReaches(KeyOnFile(roster, env.holders[k]).value, newKey);
    }
    forall k | 0 <= k < |env.machines|
      ensures Reaches(env.machines[k].publicKey, newKey, request.machineGrants[k].encVaultKey)
    {
      GrantReaches(env.machines[k].publicKey, newKey);
    }
  }
}
