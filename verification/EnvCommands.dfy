/** Comparing two environments, and copying one onto another. */
module EnvCommands {
  import opened Aead
  import opened LocalStore
  import opened LocalVault
  import opened Ordering
  import opened Outcomes
  import opened SecretCrypto
  import opened VaultModel
  import opened VaultRuns

  type Entry = (string, Bytes)
  type Values = map<string, Bytes>

  datatype DiffStatus = OnlyLeft | OnlyRight | Differs | Equal
  datatype DiffEntry = DiffEntry(name: string, status: DiffStatus, left: Option<Bytes>, right: Option<Bytes>)

  /** What a copy would change, by name: new to the destination, overwritten there, or already equal. */
  datatype CopyPlan = CopyPlan(create: seq<string>, update: seq<string>, same: seq<string>)

  // ---------- what the commands compute ----------

  /** Entries collected into a map, a later one of the same name winning. */
  function MapOf(es: seq<Entry>): Values {
    if es == [] then map[] else MapOf(es[..|es| - 1])[es[|es| - 1].0 := es[|es| - 1].1]
  }

  function Lookup(values: Values, name: string): Option<Bytes> {
    if name in values then Some(values[name]) else None
  }

  function StatusOf(left: Values, right: Values, name: string): DiffStatus
    requires name in left || name in right
  {
    if name !in right then OnlyLeft
    else if name !in left then OnlyRight
    else if left[name] == right[name] then Equal
    else Differs
  }

  predicate SameValue(values: Values, e: Entry) {
    e.0 in values && values[e.0] == e.1
  }

  function Planned(plan: CopyPlan, values: Values, e: Entry): CopyPlan {
    if SameValue(values, e) then plan.(same := plan.same + [e.0])
    else if e.0 in values then plan.(update := plan.update + [e.0])
    else plan.(create := plan.create + [e.0])
  }

  /** The plan for copying these entries onto a destination with these values. */
  function PlanOf(es: seq<Entry>, values: Values): CopyPlan {
    if es == [] then CopyPlan([], [], [])
    else Planned(PlanOf(es[..|es| - 1], values), values, es[|es| - 1])
  }

  /** The sets a copy performs; the `k`-th entry draws the `k`-th id and data key. */
  function CopyOps(es: seq<Entry>, values: Values, newId: nat -> string, dataKey: nat -> Key): seq<Op> {
    if es == [] then []
    else
      var k, e := |es| - 1, es[|es| - 1];
      var rest := CopyOps(es[..k], values, newId, dataKey);
      if SameValue(values, e) then rest else rest + [SetOp(e.0, e.1, newId(k), dataKey(k))]
  }

  function AllDone(n: nat): (outcomes: seq<Outcome>)
    ensures |outcomes| == n
  {
    seq(n, k => Done)
  }

  // ---------- the commands ----------

  ghost predicate Opens(t: Tables, keypair: Keypair, name: string, u: Unlocked) {
    && name in t.environments
    && u.env == t.environments[name].id
    && OpenVaultKey(keypair, t.environments[name].grant) == Ok(u.key)
  }

  ghost predicate EntriesFor(t: Tables, keypair: Keypair, name: string, r: Result<seq<Entry>, VaultError>) {
    if name !in t.environments then r == Err(NotFound)
    else
      match OpenVaultKey(keypair, t.environments[name].grant)
      case Err(_) => r == Err(VaultError.Crypto)
      case Ok(key) => Reads(t, Unlocked(t.environments[name].id, key), r)
  }

  method ReadEntries(store: Store, keypair: Keypair, name: string) returns (r: Result<seq<Entry>, VaultError>)
    ensures EntriesFor(store.View(), keypair, name, r)
  {
    hide Reads, OpenVaultKey;
    var vault := OpenVault(store, keypair, name);
    if vault.Err? {
      return Err(vault.error);
    }
    r := vault.value.Entries();
  }

  function Difference(left: Values, right: Values, name: string): DiffEntry
    requires name in left || name in right
  {
    DiffEntry(name, StatusOf(left, right, name), Lookup(left, name), Lookup(right, name))
  }

  /** An entry shows both sides' values of its name, and the status they have together. */
  ghost predicate ShowsBoth(left: Values, right: Values, e: DiffEntry) {
    && (forall v :: e.left == Some(v) <==> e.name in left && left[e.name] == v)
    && (forall v :: e.right == Some(v) <==> e.name in right && right[e.name] == v)
    && (e.status == OnlyLeft <==> e.right.None?)
    && (e.status == OnlyRight <==> e.left.None?)
    && (e.status == Equal <==> e.left.Some? && e.right.Some? && e.left == e.right)
    && (e.status == Differs <==> e.left.Some? && e.right.Some? && e.left != e.right)
  }

  ghost predicate NamedIn(diff: seq<DiffEntry>, name: string) {
    exists k :: 0 <= k < |diff| && diff[k].name == name
  }

  /** One entry for every name of either side, in the order of the names, showing what each side holds. */
  ghost predicate IsDiff(left: Values, right: Values, diff: seq<DiffEntry>) {
    && (forall j, k :: 0 <= j < k < |diff| ==> StrLt(diff[j].name, diff[k].name))
    && (forall name :: NamedIn(diff, name) <==> name in left || name in right)
    && (forall k :: 0 <= k < |diff| ==> ShowsBoth(left, right, diff[k]))
  }

  method Compare(left: Values, right: Values) returns (diff: seq<DiffEntry>)
    ensures IsDiff(left, right, diff)
  {
    hide SortedKeys, StrLt, ShowsBoth, Difference, NamedIn, Ascending;
    var names := EnumerateSorted(left.Keys + right.Keys);
    diff := [];
    for k := 0 to |names|
      invariant |diff| == k
      invariant forall i :: 0 <= i < k ==> diff[i].name == names[i] && ShowsBoth(left, right, diff[i])
    {
      assert names[k] in names;
      DifferenceShows(left, right, names[k]);
      diff := diff + [Difference(left, right, names[k])];
    }
    NamesShown(left, right, names, diff);
  }

  lemma NamesShown(left: Values, right: Values, names: seq<string>, diff: seq<DiffEntry>)
    requires |diff| == |names| && forall k :: 0 <= k < |names| ==> diff[k].name == names[k]
    requires forall name :: name in names <==> name in left.Keys + right.Keys
    requires Ascending(Self, names)
    ensures forall name :: NamedIn(diff, name) <==> name in left || name in right
    ensures forall j, k :: 0 <= j < k < |diff| ==> StrLt(diff[j].name, diff[k].name)
  {
    hide StrLt;
    forall name ensures NamedIn(diff, name) <==> name in left || name in right {
      if name in left || name in right {
        assert name in names;
        var k :| 0 <= k < |names| && names[k] == name;
        assert diff[k].name == name;
      }
      if k :| 0 <= k < |diff| && diff[k].name == name {
        assert names[k] in names;
      }
    }
    forall j, k | 0 <= j < k < |diff| ensures StrLt(diff[j].name, diff[k].name) {
      assert StrLt(Self(names[j]), Self(names[k]));
    }
  }

  lemma DifferenceShows(left: Values, right: Values, name: string)
    requires name in left || name in right
    ensures Difference(left, right, name).name == name
    ensures ShowsBoth(left, right, Difference(left, right, name))
  {
  }

  /** A comparison of what both environments hold, or the failure of reading one, the left one first. */
  ghost predicate DiffOutcome(t: Tables, keypair: Keypair, left: string, right: string,
                              r: Result<seq<DiffEntry>, VaultError>)
  {
    match r
    case Ok(diff) =>
      exists le, re :: EntriesFor(t, keypair, left, Ok(le)) && EntriesFor(t, keypair, right, Ok(re)) &&
                       IsDiff(MapOf(le), MapOf(re), diff)
    case Err(e) =>
      || EntriesFor(t, keypair, left, Err(e))
      || exists le :: EntriesFor(t, keypair, left, Ok(le)) && EntriesFor(t, keypair, right, Err(e))
  }

  method EnvDiff(store: Store, keypair: Keypair, left: string, right: string)
    returns (r: Result<seq<DiffEntry>, VaultError>)
    ensures DiffOutcome(store.View(), keypair, left, right, r)
  {
    hide EntriesFor, MapOf, IsDiff;
    var le := ReadEntries(store, keypair, left);
    if le.Err? {
      return Err(le.error);
    }
    var re := ReadEntries(store, keypair, right);
    if re.Err? {
      return Err(re.error);
    }
    var diff := Compare(MapOf(le.value), MapOf(re.value));
    r := Ok(diff);
  }

  /** What a copy reads before it writes: the source's entries, and the destination's vault and entries. */
  ghost predicate CopyReads(t: Tables, keypair: Keypair, src: string, dst: string,
                            u: Unlocked, se: seq<Entry>, de: seq<Entry>)
  {
    && src != dst
    && EntriesFor(t, keypair, src, Ok(se))
    && Opens(t, keypair, dst, u)
    && Reads(t, u, Ok(de))
  }

  /** A copy that succeeded: its plan, and the sets it performed if it was to apply it. */
  ghost predicate Copies(t: Tables, keypair: Keypair, src: string, dst: string, apply: bool,
                         newId: nat -> string, dataKey: nat -> Key,
                         plan: CopyPlan, t2: Tables, u: Unlocked, se: seq<Entry>, de: seq<Entry>)
  {
    && CopyReads(t, keypair, src, dst, u, se, de)
    && plan == PlanOf(se, MapOf(de))
    && var ops := if apply then CopyOps(se, MapOf(de), newId, dataKey) else [];
       Ran(t, u, ops, AllDone(|ops|), t2)
  }

  /** One of the two environments could not be read. */
  ghost predicate StopsReading(t: Tables, keypair: Keypair, src: string, dst: string, e: VaultError) {
    && src != dst
    && (|| EntriesFor(t, keypair, src, Err(e))
        || exists se :: EntriesFor(t, keypair, src, Ok(se)) && EntriesFor(t, keypair, dst, Err(e)))
  }

  /** A copy that stopped at a set that failed, after the sets before it. */
  ghost predicate CopiesInPart(t: Tables, keypair: Keypair, src: string, dst: string,
                               newId: nat -> string, dataKey: nat -> Key, t2: Tables, e: VaultError,
                               u: Unlocked, se: seq<Entry>, de: seq<Entry>, n: nat)
  {
    && CopyReads(t, keypair, src, dst, u, se, de)
    && var ops := CopyOps(se, MapOf(de), newId, dataKey);
    && n < |ops|
    && Ran(t, u, ops[..n], AllDone(n), t2)
    && Step(t2, u, ops[n], t2, Failed(e))
  }

  /** Everything a copy may leave and answer: it did what its plan says; or it refused to copy an
      environment onto itself, or could not read one of the two, and changed nothing; or a set failed,
      and exactly the sets before it were made. */
  ghost predicate CopyOutcome(t: Tables, keypair: Keypair, src: string, dst: string, apply: bool,
                              newId: nat -> string, dataKey: nat -> Key,
                              t2: Tables, r: Result<CopyPlan, VaultError>)
  {
    match r
    case Ok(plan) =>
      exists u, se, de :: Copies(t, keypair, src, dst, apply, newId, dataKey, plan, t2, u, se, de)
    case Err(e) =>
      || (src == dst && e == Input && t2 == t)
      || (StopsReading(t, keypair, src, dst, e) && t2 == t)
      || (apply && exists u, se, de, n :: CopiesInPart(t, keypair, src, dst, newId, dataKey, t2, e, u, se, de, n))
  }

  method EnvCopy(store: Store, keypair: Keypair, src: string, dst: string, apply: bool,
                 newId: nat -> string, dataKey: nat -> Key)
    returns (r: Result<CopyPlan, VaultError>)
    modifies store`secrets, store`versions
    ensures src == dst ==> r == Err(Input)
    ensures CopyOutcome(old(store.View()), keypair, src, dst, apply, newId, dataKey, store.View(), r)
  {
    hide *;
    ghost var t := store.View();
    if src == dst {
      SameRefused(t, keypair, src, apply, newId, dataKey);
      return Err(Input);
    }
    var srcEntries := ReadEntries(store, keypair, src);
    if srcEntries.Err? {
      SourceUnread(t, keypair, src, dst, apply, newId, dataKey, srcEntries.error);
      return Err(srcEntries.error);
    }
    var se := srcEntries.value;
    var target := OpenVault(store, keypair, dst);
    if target.Err? {
      NotOpened(store, keypair, dst, target.error);
      DestinationUnread(t, keypair, src, dst, apply, newId, dataKey, se, target.error);
      return Err(target.error);
    }
    var vault := target.value;
    var dstEntries := vault.Entries();
    if dstEntries.Err? {
      NotRead(store, keypair, dst, vault, dstEntries.error);
      DestinationUnread(t, keypair, src, dst, apply, newId, dataKey, se, dstEntries.error);
      return Err(dstEntries.error);
    }
    var dstMap := MapOf(dstEntries.value);
    ghost var u, de := vault.open, dstEntries.value;
    ReadsDone(store, keypair, src, dst, vault, se, de);
    var plan := CopyPlan([], [], []);
    ghost var ops: seq<Op> := [];
    NothingYet(t, u, se, dstMap, newId, dataKey);
    for k := 0 to |se|
      invariant plan == PlanOf(se[..k], dstMap)
      invariant ops == if apply then CopyOps(se[..k], dstMap, newId, dataKey) else []
      invariant Ran(t, u, ops, AllDone(|ops|), store.View())
      invariant !apply ==> store.View() == t
    {
      var (name, value) := se[k];
      OneEntryMore(se, k, dstMap, newId, dataKey);
      if name in dstMap && dstMap[name] == value {
        plan := plan.(same := plan.same + [name]);
      } else {
        NotSame(dstMap, se[k]);
        ghost var before := store.View();
        if apply {
          var o := vault.Set(name, value, newId(k), dataKey(k));
          ghost var op := SetOp(name, value, newId(k), dataKey(k));
          if o.Failed? {
            FailedSet(before, u, op, store.View(), o);
            PartCopied(t, keypair, src, dst, newId, dataKey, store.View(), o.error, u, se, de, k);
            return Err(o.error);
          }
          OneStepMore(t, u, ops, op, before, store.View());
          ops := ops + [op];
        }
        if name in dstMap {
          plan := plan.(update := plan.update + [name]);
        } else {
          plan := plan.(create := plan.create + [name]);
        }
      }
    }
    assert se[..|se|] == se;
    AllCopied(t, keypair, src, dst, apply, newId, dataKey, plan, store.View(), u, se, de);
    r := Ok(plan);
  }

  lemma NotSame(values: Values, e: Entry)
    requires !(e.0 in values && values[e.0] == e.1)
    ensures !SameValue(values, e)
  {
  }

  lemma NothingYet(t: Tables, u: Unlocked, se: seq<Entry>, values: Values, newId: nat -> string, dataKey: nat -> Key)
    ensures PlanOf(se[..0], values) == CopyPlan([], [], [])
    ensures CopyOps(se[..0], values, newId, dataKey) == []
    ensures Ran(t, u, [], AllDone(0), t)
  {
  }

  lemma ReadsDone(store: Store, keypair: Keypair, src: string, dst: string, vault: Vault,
                  se: seq<Entry>, de: seq<Entry>)
    requires src != dst && EntriesFor(store.View(), keypair, src, Ok(se))
    requires dst in store.environments
    requires OpenVaultKey(keypair, store.environments[dst].grant) == Ok(vault.open.key)
    requires vault.open.env == store.environments[dst].id
    requires Reads(store.View(), vault.open, Ok(de))
    ensures CopyReads(store.View(), keypair, src, dst, vault.open, se, de)
  {
  }

  lemma SameRefused(t: Tables, keypair: Keypair, env: string, apply: bool,
                    newId: nat -> string, dataKey: nat -> Key)
    ensures CopyOutcome(t, keypair, env, env, apply, newId, dataKey, t, Err(Input))
  {
  }

  lemma SourceUnread(t: Tables, keypair: Keypair, src: string, dst: string, apply: bool,
                     newId: nat -> string, dataKey: nat -> Key, e: VaultError)
    requires src != dst && EntriesFor(t, keypair, src, Err(e))
    ensures CopyOutcome(t, keypair, src, dst, apply, newId, dataKey, t, Err(e))
  {
    hide EntriesFor;
  }

  lemma DestinationUnread(t: Tables, keypair: Keypair, src: string, dst: string, apply: bool,
                          newId: nat -> string, dataKey: nat -> Key, se: seq<Entry>, e: VaultError)
    requires src != dst && EntriesFor(t, keypair, src, Ok(se)) && EntriesFor(t, keypair, dst, Err(e))
    ensures CopyOutcome(t, keypair, src, dst, apply, newId, dataKey, t, Err(e))
  {
    hide EntriesFor;
  }

  lemma NotOpened(store: Store, keypair: Keypair, name: string, e: VaultError)
    requires if name !in store.environments then e == NotFound
             else OpenVaultKey(keypair, store.environments[name].grant).Err? && e == VaultError.Crypto
    ensures EntriesFor(store.View(), keypair, name, Err(e))
  {
    hide OpenVaultKey, Reads;
  }

  lemma NotRead(store: Store, keypair: Keypair, name: string, vault: Vault, e: VaultError)
    requires name in store.environments
    requires OpenVaultKey(keypair, store.environments[name].grant) == Ok(vault.open.key)
    requires vault.open.env == store.environments[name].id
    requires Reads(store.View(), vault.open, Err(e))
    ensures EntriesFor(store.View(), keypair, name, Err(e))
  {
    hide OpenVaultKey, Reads;
  }

  lemma PartCopied(t: Tables, keypair: Keypair, src: string, dst: string,
                   newId: nat -> string, dataKey: nat -> Key, t2: Tables, e: VaultError,
                   u: Unlocked, se: seq<Entry>, de: seq<Entry>, k: nat)
    requires CopyReads(t, keypair, src, dst, u, se, de) && k < |se| && !SameValue(MapOf(de), se[k])
    requires var ops := CopyOps(se[..k], MapOf(de), newId, dataKey); Ran(t, u, ops, AllDone(|ops|), t2)
    requires Sets(t2, u, se[k].0, se[k].1, newId(k), dataKey(k), t2, Failed(e))
    ensures CopyOutcome(t, keypair, src, dst, true, newId, dataKey, t2, Err(e))
  {
    hide CopyReads, Ran, MapOf, Sets;
    var ops, more := CopyOps(se[..k], MapOf(de), newId, dataKey), CopyOps(se[..k + 1], MapOf(de), newId, dataKey);
    var all := CopyOps(se, MapOf(de), newId, dataKey);
    OneEntryMore(se, k, MapOf(de), newId, dataKey);
    PrefixOfAll(se, k + 1, MapOf(de), newId, dataKey);
    assert all[..|ops|] == ops && all[|ops|] == more[|ops|];
    assert CopiesInPart(t, keypair, src, dst, newId, dataKey, t2, e, u, se, de, |ops|);
  }

  lemma AllCopied(t: Tables, keypair: Keypair, src: string, dst: string, apply: bool,
                  newId: nat -> string, dataKey: nat -> Key,
                  plan: CopyPlan, t2: Tables, u: Unlocked, se: seq<Entry>, de: seq<Entry>)
    requires CopyReads(t, keypair, src, dst, u, se, de) && plan == PlanOf(se, MapOf(de))
    requires var ops := if apply then CopyOps(se, MapOf(de), newId, dataKey) else [];
             Ran(t, u, ops, AllDone(|ops|), t2)
    ensures CopyOutcome(t, keypair, src, dst, apply, newId, dataKey, t2, Ok(plan))
  {
    hide CopyReads, Ran, MapOf;
    assert Copies(t, keypair, src, dst, apply, newId, dataKey, plan, t2, u, se, de);
  }

  lemma OneEntryMore(se: seq<Entry>, k: nat, values: Values, newId: nat -> string, dataKey: nat -> Key)
    requires k < |se|
    ensures var (name, value) := se[k];
            var plan, next := PlanOf(se[..k], values), PlanOf(se[..k + 1], values);
            var ops, more := CopyOps(se[..k], values, newId, dataKey), CopyOps(se[..k + 1], values, newId, dataKey);
            if name in values && values[name] == value then next == plan.(same := plan.same + [name]) && more == ops
            else
              && more == ops + [SetOp(name, value, newId(k), dataKey(k))]
              && next == if name in values then plan.(update := plan.update + [name])
                         else plan.(create := plan.create + [name])
  {
    assert se[..k + 1][..k] == se[..k];
  }

  lemma {:induction false} PrefixOfAll(se: seq<Entry>, k: nat, values: Values, newId: nat -> string, dataKey: nat -> Key)
    requires k <= |se|
    ensures CopyOps(se[..k], values, newId, dataKey) <= CopyOps(se, values, newId, dataKey)
  {
    if k < |se| {
      PrefixOfAll(se[..|se| - 1], k, values, newId, dataKey);
      assert se[..|se| - 1][..k] == se[..k];
    } else {
      assert se[..k] == se;
    }
  }

  lemma FailedSet(t: Tables, u: Unlocked, op: Op, t2: Tables, o: Outcome)
    requires op.SetOp? && Sets(t, u, op.name, op.value, op.newId, op.dataKey, t2, o) && o.Failed?
    ensures t2 == t
  {
  }

  lemma OneStepMore(t: Tables, u: Unlocked, ops: seq<Op>, op: Op, mid: Tables, t2: Tables)
    requires Ran(t, u, ops, AllDone(|ops|), mid)
    requires op.SetOp? && Sets(mid, u, op.name, op.value, op.newId, op.dataKey, t2, Done)
    ensures Ran(t, u, ops + [op], AllDone(|ops + [op]|), t2)
  {
    hide Sets;
    var all, outcomes := ops + [op], AllDone(|ops| + 1);
    assert all[..|ops|] == ops && outcomes[..|ops|] == AllDone(|ops|);
    assert ThenSteps(t, u, op, Done, mid, t2);
  }
}
