/** Runs of a vault: sets and deletes in any order, with resurrection, act as on a map of values. */
module VaultRuns {
  import opened Aead
  import opened LocalStore
  import opened LocalVault
  import opened Outcomes
  import opened SecretCrypto
  import opened VaultModel

  // ---------- one statement ----------

  /** Nothing but this row and its history differs. */
  ghost predicate TouchesOnly(t: Tables, t2: Tables, id: string) {
    && t2.environments == t.environments
    && t2.secrets.Keys == t.secrets.Keys + {id}
    && (forall other :: other in t.secrets && other != id ==> t2.secrets[other] == t.secrets[other])
    && (forall k :: k in t.versions ==> k in t2.versions && t2.versions[k] == t.versions[k])
    && (forall k :: k in t2.versions && k !in t.versions ==> k.0 == id)
  }

  lemma WrittenReads(u: Unlocked, id: string, v: int, name: string, value: Bytes, dataKey: Key)
    ensures VersionReads(u, id, v, Encrypted(u, id, v, name, value, dataKey), name, value)
  {
  }

  lemma UpdateRow(t: Tables, u: Unlocked, name: string, id: string, values: seq<Bytes>, live: bool,
                  value: Bytes, dataKey: Key)
    requires RowFor(t, u, name, id, values, live) && HistoryOwned(t)
    ensures var r := NextVersion(t, u, SecretRow(id, t.secrets[id]), name, value, dataKey);
            && r.Ok?
            && TouchesOnly(t, r.value, id)
            && HistoryOwned(r.value)
            && RowFor(r.value, u, name, id, values + [value], true)
  {
    hide VersionReads, Encrypted;
    WrittenReads(u, id, |values| + 1, name, value, dataKey);
  }

  lemma InsertRow(t: Tables, u: Unlocked, name: string, id: string, value: Bytes, dataKey: Key)
    requires id !in t.secrets && HistoryOwned(t) && HasEnv(t, u.env)
    ensures var r := FirstVersion(t, u, id, name, value, dataKey);
            && r.Ok?
            && TouchesOnly(t, r.value, id)
            && HistoryOwned(r.value)
            && RowFor(r.value, u, name, id, [value], true)
  {
    hide VersionReads, Encrypted, HasEnv;
    WrittenReads(u, id, 1, name, value, dataKey);
  }

  lemma DeleteRow(t: Tables, u: Unlocked, name: string, id: string, values: seq<Bytes>)
    requires RowFor(t, u, name, id, values, true) && HistoryOwned(t)
    ensures var r := Tombstoned(t, id);
            && r.Ok?
            && TouchesOnly(t, r.value, id)
            && HistoryOwned(r.value)
            && RowFor(r.value, u, name, id, values, false)
  {
  }

  lemma RowUntouched(t: Tables, t2: Tables, changed: string, u: Unlocked,
                     name: string, id: string, values: seq<Bytes>, live: bool)
    requires RowFor(t, u, name, id, values, live) && TouchesOnly(t, t2, changed) && id != changed
    ensures RowFor(t2, u, name, id, values, live)
  {
  }

  lemma IdsDiffer(t: Tables, u: Unlocked, m: Model, a: string, b: string)
    requires Represents(t, u, m) && a in m.ids && b in m.ids && m.ids[a] == m.ids[b]
    ensures a == b
  {
    hide NameOf, RowFor;
    RowListed(t, u, m, a);
    RowListed(t, u, m, b);
  }

  /** The model after one name's row changed. */
  function Changed(m: Model, name: string, id: string, values: seq<Bytes>, live: bool): Model
    requires values != []
  {
    Model(m.ids[name := id],
          if live then m.live[name := values[|values| - 1]] else m.live - {name},
          m.past[name := values])
  }

  lemma ChangedWellFormed(m: Model, name: string, id: string, values: seq<Bytes>, live: bool)
    requires WellFormed(m) && values != []
    ensures WellFormed(Changed(m, name, id, values, live))
  {
  }

  lemma OtherRowKept(t: Tables, t2: Tables, u: Unlocked, m: Model, name: string, id: string, other: string)
    requires Represents(t, u, m) && TouchesOnly(t, t2, id)
    requires if name in m.ids then m.ids[name] == id else id !in t.secrets
    requires other in m.ids && other != name
    ensures other in m.past && RowFor(t2, u, other, m.ids[other], m.past[other], other in m.live)
  {
    hide RowFor, TouchesOnly, Represents;
    RowOf(t, u, m, other);
    if name in m.ids && m.ids[other] == id {
      IdsDiffer(t, u, m, other, name);
    }
    RowUntouched(t, t2, id, u, other, m.ids[other], m.past[other], other in m.live);
  }

  lemma StillOwned(t: Tables, t2: Tables, u: Unlocked, m: Model, m2: Model, name: string, id: string)
    requires RowsOwned(t, u, m) && TouchesOnly(t, t2, id)
    requires m2.ids == m.ids[name := id]
    requires if name in m.ids then m.ids[name] == id else id !in t.secrets
    ensures RowsOwned(t2, u, m2)
  {
    forall x | x in t2.secrets && t2.secrets[x].env == u.env
      ensures Owned(m2, x)
    {
      if x == id {
        assert m2.ids[name] == id;
      } else {
        assert Owned(m, x);
        var n :| n in m.ids && m.ids[n] == x;
        assert m2.ids[n] == x;
      }
    }
  }

  lemma RowChanges(t: Tables, t2: Tables, u: Unlocked, m: Model,
                   name: string, id: string, values: seq<Bytes>, live: bool)
    requires Represents(t, u, m) && TouchesOnly(t, t2, id) && values != []
    requires RowFor(t2, u, name, id, values, live)
    requires if name in m.ids then m.ids[name] == id else id !in t.secrets
    ensures Represents(t2, u, Changed(m, name, id, values, live))
  {
    hide RowFor, TouchesOnly, RowsOwned, WellFormed;
    var m2 := Changed(m, name, id, values, live);
    ChangedWellFormed(m, name, id, values, live);
    forall other | other in m2.ids
      ensures other in m2.past && RowFor(t2, u, other, m2.ids[other], m2.past[other], other in m2.live)
    {
      if other != name {
        OtherRowKept(t, t2, u, m, name, id, other);
      }
    }
    StillOwned(t, t2, u, m, m2, name, id);
  }

  /** A vault of another environment is as it was. */
  lemma OthersKept(t: Tables, t2: Tables, changed: string, u: Unlocked, m: Model)
    requires Represents(t, u, m) && TouchesOnly(t, t2, changed)
    requires changed in t2.secrets && t2.secrets[changed].env != u.env
    requires changed in t.secrets ==> t.secrets[changed].env != u.env
    ensures Represents(t2, u, m)
  {
    hide VersionReads, RowFor;
    forall name | name in m.ids
      ensures RowFor(t2, u, name, m.ids[name], m.past[name], name in m.live)
    {
      RowOf(t, u, m, name);
      RowShape(t, u, name, m.ids[name], m.past[name], name in m.live);
      RowUntouched(t, t2, changed, u, name, m.ids[name], m.past[name], name in m.live);
    }
  }

  lemma RowShape(t: Tables, u: Unlocked, name: string, id: string, values: seq<Bytes>, live: bool)
    requires RowFor(t, u, name, id, values, live)
    ensures |values| >= 1 && id in t.secrets && t.secrets[id].env == u.env && t.secrets[id].version == |values|
  {
  }

  // ---------- one operation ----------

  /** A set or a delete; a set carries the id and data key it would draw. */
  datatype Op =
    | SetOp(name: string, value: Bytes, newId: string, dataKey: Key)
    | DeleteOp(name: string)

  ghost predicate Step(t: Tables, u: Unlocked, op: Op, t2: Tables, o: Outcome) {
    match op
    case SetOp(name, value, newId, dataKey) => Sets(t, u, name, value, newId, dataKey, t2, o)
    case DeleteOp(name) => Deletes(t, u, name, t2, o)
  }

  function Past(m: Model, name: string): seq<Bytes> {
    if name in m.past then m.past[name] else []
  }

  function AfterOp(m: Model, op: Op): Model {
    match op
    case SetOp(name, value, newId, _) =>
      Changed(m, name, if name in m.ids then m.ids[name] else newId, Past(m, name) + [value], true)
    case DeleteOp(name) =>
      if name in m.live then m.(live := m.live - {name}) else m
  }

  /** The operation does what it says: deletes need a live secret, and a new row needs an id not taken. */
  function Expected(t: Tables, m: Model, op: Op): Outcome {
    match op
    case SetOp(name, _, newId, _) => if name in m.ids || newId !in t.secrets then Done else Failed(Storage)
    case DeleteOp(name) => if name in m.live then Done else Failed(NotFound)
  }

  function NewRows(m: Model, op: Op): set<string> {
    if op.SetOp? && op.name !in m.ids then {op.newId} else {}
  }

  /** What one successful operation leaves. */
  ghost predicate Advanced(t: Tables, u: Unlocked, m: Model, op: Op, t2: Tables) {
    && HistoryOwned(t2)
    && Represents(t2, u, AfterOp(m, op))
    && t2.environments == t.environments
    && t2.secrets.Keys == t.secrets.Keys + NewRows(m, op)
  }

  lemma SetWritten(t: Tables, u: Unlocked, m: Model, name: string, value: Bytes, newId: string, dataKey: Key,
                   written: Result<Tables, VaultError>)
    requires Represents(t, u, m) && HistoryOwned(t) && HasEnv(t, u.env)
    requires SetWrites(t, u, name, value, newId, dataKey, written)
    ensures name in m.ids || newId !in t.secrets ==>
              && written.Ok?
              && Advanced(t, u, m, SetOp(name, value, newId, dataKey), written.value)
              && TouchesOnly(t, written.value, if name in m.ids then m.ids[name] else newId)
              && (name in m.ids ==> t.secrets[m.ids[name]].env == u.env)
              && RowFor(written.value, u, name, if name in m.ids then m.ids[name] else newId,
                        Past(m, name) + [value], true)
    ensures !(name in m.ids || newId !in t.secrets) ==> written == Err(Storage)
  {
    hide VersionReads, RowFor, NoneNamed, SomeUnreadable, Named, Represents, NextVersion, TouchesOnly, HistoryOwned;
    Lookups(t, u, m, false, name);
    Lookups(t, u, m, true, name);
    ModelShape(t, u, m);
    if name in m.ids {
      var id := m.ids[name];
      RowOf(t, u, m, name);
      RowShape(t, u, name, id, m.past[name], name in m.live);
      assert written == NextVersion(t, u, SecretRow(id, t.secrets[id]), name, value, dataKey);
      UpdateRow(t, u, name, id, m.past[name], name in m.live, value, dataKey);
      RowChanges(t, written.value, u, m, name, id, m.past[name] + [value], true);
      Touched(t, written.value, id);
    } else {
      assert written == FirstVersion(t, u, newId, name, value, dataKey);
      if newId !in t.secrets {
        InsertRow(t, u, name, newId, value, dataKey);
        assert Past(m, name) + [value] == [value];
        RowChanges(t, written.value, u, m, name, newId, [value], true);
        Touched(t, written.value, newId);
      }
    }
  }

  lemma ModelShape(t: Tables, u: Unlocked, m: Model)
    requires Represents(t, u, m)
    ensures m.past.Keys == m.ids.Keys && m.live.Keys <= m.ids.Keys
  {
  }

  lemma Touched(t: Tables, t2: Tables, id: string)
    requires TouchesOnly(t, t2, id)
    ensures t2.environments == t.environments && t2.secrets.Keys == t.secrets.Keys + {id}
    ensures id in t.secrets ==> t2.secrets.Keys == t.secrets.Keys
  {
  }

  /** Setting and deleting rows is setting and deleting in the map: every outcome is the expected one,
      a refused operation changes nothing, and no other environment is affected. */
  lemma StepRefines(t: Tables, u: Unlocked, m: Model, op: Op, t2: Tables, o: Outcome)
    requires Represents(t, u, m) && HistoryOwned(t) && HasEnv(t, u.env)
    requires Step(t, u, op, t2, o)
    ensures o == Expected(t, m, op)
    ensures o == Done ==> Advanced(t, u, m, op, t2)
    ensures o != Done ==> t2 == t
    ensures o == Done ==> exists id :: TouchesOnly(t, t2, id) && id in t2.secrets && t2.secrets[id].env == u.env
                                       && (id in t.secrets ==> t.secrets[id].env == u.env)
  {
    hide VersionReads, RowFor, NoneNamed, SomeUnreadable, Named, Represents, TouchesOnly, HistoryOwned, SetWrites,
         Tombstoned;
    match op
    case SetOp(name, value, newId, dataKey) =>
      Lookups(t, u, m, false, name);
      Lookups(t, u, m, true, name);
      var written :| SetWrites(t, u, name, value, newId, dataKey, written) && (t2, o) == Settled(t, written);
      SetWritten(t, u, m, name, value, newId, dataKey, written);
      if written.Ok? {
        RowShape(t2, u, name, if name in m.ids then m.ids[name] else newId, Past(m, name) + [value], true);
      }
    case DeleteOp(name) =>
      Lookups(t, u, m, false, name);
      ModelShape(t, u, m);
      if name in m.live {
        var id := m.ids[name];
        RowOf(t, u, m, name);
        RowShape(t, u, name, id, m.past[name], true);
        DeleteRow(t, u, name, id, m.past[name]);
        RowShape(t2, u, name, id, m.past[name], false);
        RowChanges(t, t2, u, m, name, id, m.past[name], false);
        Touched(t, t2, id);
        assert Changed(m, name, id, m.past[name], false) == AfterOp(m, op);
      }
  }

  lemma StepKeepsOthers(t: Tables, u: Unlocked, m: Model, op: Op, t2: Tables, o: Outcome, u2: Unlocked, m2: Model)
    requires Represents(t, u, m) && HistoryOwned(t) && HasEnv(t, u.env)
    requires Step(t, u, op, t2, o)
    requires Represents(t, u2, m2) && u2.env != u.env
    ensures Represents(t2, u2, m2)
  {
    hide Step, Represents, TouchesOnly, Advanced, HistoryOwned;
    StepRefines(t, u, m, op, t2, o);
    if o == Done {
      var id :| TouchesOnly(t, t2, id) && id in t2.secrets && t2.secrets[id].env == u.env
                && (id in t.secrets ==> t.secrets[id].env == u.env);
      OthersKept(t, t2, id, u2, m2);
    }
  }

  // ---------- runs ----------

  ghost predicate ThenSteps(t: Tables, u: Unlocked, op: Op, o: Outcome, mid: Tables, t2: Tables) {
    Step(mid, u, op, t2, o)
  }

  /** From `t`, these operations in this order, with these outcomes, lead to `t2`. */
  ghost predicate Ran(t: Tables, u: Unlocked, ops: seq<Op>, outcomes: seq<Outcome>, t2: Tables)
    decreases ops
  {
    && |outcomes| == |ops|
    && if ops == [] then t2 == t
       else
         var n := |ops| - 1;
         exists mid :: ThenSteps(t, u, ops[n], outcomes[n], mid, t2) && Ran(t, u, ops[..n], outcomes[..n], mid)
  }

  /** The ids drawn are taken by no row, and no id is drawn twice. */
  ghost predicate FreshIds(t: Tables, ops: seq<Op>) {
    && (forall i :: 0 <= i < |ops| && ops[i].SetOp? ==> ops[i].newId !in t.secrets)
    && (forall i, j :: 0 <= i < j < |ops| && ops[i].SetOp? && ops[j].SetOp? ==> ops[i].newId != ops[j].newId)
  }

  function ModelAfter(m: Model, ops: seq<Op>): Model {
    if ops == [] then m else AfterOp(ModelAfter(m, ops[..|ops| - 1]), ops[|ops| - 1])
  }

  ghost predicate DrawnBy(ops: seq<Op>, id: string) {
    exists i :: 0 <= i < |ops| && ops[i].SetOp? && ops[i].newId == id
  }

  ghost predicate RowsFrom(t: Tables, ops: seq<Op>, t2: Tables) {
    forall id :: id in t2.secrets ==> id in t.secrets || DrawnBy(ops, id)
  }

  function ExpectedFor(m: Model, op: Op): Outcome {
    if op.DeleteOp? && op.name !in m.live then Failed(NotFound) else Done
  }

  lemma NextRows(t: Tables, ops: seq<Op>, op: Op, mid: Tables, t2: Tables)
    requires ops != [] && op == ops[|ops| - 1]
    requires RowsFrom(t, ops[..|ops| - 1], mid)
    requires forall id :: id in t2.secrets ==> id in mid.secrets || (op.SetOp? && id == op.newId)
    ensures RowsFrom(t, ops, t2)
  {
  }

  /** Any run of sets and deletes takes the rows that stand for a map to rows that stand for the map
      after the same operations; every set succeeds, and a delete fails exactly when its name is not
      live. Environments that took no part stand for what they stood for. */
  lemma {:induction false} RunRefines(t: Tables, u: Unlocked, m: Model, ops: seq<Op>, outcomes: seq<Outcome>,
                                      t2: Tables, u2: Unlocked, m2: Model)
    requires Represents(t, u, m) && HistoryOwned(t) && HasEnv(t, u.env)
    requires FreshIds(t, ops) && Ran(t, u, ops, outcomes, t2)
    ensures HistoryOwned(t2) && t2.environments == t.environments && RowsFrom(t, ops, t2)
    ensures Represents(t2, u, ModelAfter(m, ops))
    ensures forall i :: 0 <= i < |ops| ==> outcomes[i] == ExpectedFor(ModelAfter(m, ops[..i]), ops[i])
    ensures u2.env != u.env && Represents(t, u2, m2) ==> Represents(t2, u2, m2)
    decreases ops
  {
    hide Step, Represents, TouchesOnly, HistoryOwned, AfterOp;
    if ops != [] {
      var n := |ops| - 1;
      var before, op := ops[..n], ops[n];
      var mid :| ThenSteps(t, u, op, outcomes[n], mid, t2) && Ran(t, u, before, outcomes[..n], mid);
      RunRefines(t, u, m, before, outcomes[..n], mid, u2, m2);
      var m1 := ModelAfter(m, before);
      StepRefines(mid, u, m1, op, t2, outcomes[n]);
      if op.SetOp? {
        assert op.newId !in mid.secrets;
      }
      if outcomes[n] != Done {
        NoChange(m1, op);
      }
      NextRows(t, ops, op, mid, t2);
      if u2.env != u.env && Represents(t, u2, m2) {
        StepKeepsOthers(mid, u, m1, op, t2, outcomes[n], u2, m2);
      }
      forall i | 0 <= i < |ops|
        ensures outcomes[i] == ExpectedFor(ModelAfter(m, ops[..i]), ops[i])
      {
        if i < n {
          assert ops[..i] == before[..i] && outcomes[i] == outcomes[..n][i] && before[i] == ops[i];
        }
      }
    }
  }

  lemma NoChange(m: Model, op: Op)
    requires ExpectedFor(m, op) != Done
    ensures AfterOp(m, op) == m
  {
  }

  // ---------- what a run from an empty environment leaves ----------

  /** Every value a name was set to, oldest first. */
  function ValuesSet(ops: seq<Op>, name: string): seq<Bytes> {
    if ops == [] then []
    else
      var rest := ValuesSet(ops[..|ops| - 1], name);
      var op := ops[|ops| - 1];
      if op.SetOp? && op.name == name then rest + [op.value] else rest
  }

  /** The last operation on the name set it. */
  predicate LastSet(ops: seq<Op>, name: string) {
    if ops == [] then false
    else
      var op := ops[|ops| - 1];
      if op.name == name then op.SetOp? else LastSet(ops[..|ops| - 1], name)
  }

  lemma {:induction false} ModelOfRun(ops: seq<Op>, name: string)
    ensures var m := ModelAfter(EMPTY, ops);
            && (name in m.ids <==> ValuesSet(ops, name) != [])
            && m.past.Keys == m.ids.Keys
            && Past(m, name) == ValuesSet(ops, name)
            && (name in m.live <==> LastSet(ops, name))
            && (LastSet(ops, name) ==> ValuesSet(ops, name) != [])
            && (name in m.live ==> m.live[name] == ValuesSet(ops, name)[|ValuesSet(ops, name)| - 1])
  {
    if ops != [] {
      ModelOfRun(ops[..|ops| - 1], name);
    }
  }

  ghost predicate NoRows(t: Tables, env: string) {
    forall id :: id in t.secrets ==> t.secrets[id].env != env
  }

  lemma EmptyRepresented(t: Tables, u: Unlocked)
    requires NoRows(t, u.env)
    ensures Represents(t, u, EMPTY)
  {
  }

  /** After any run in an environment that began without secrets, a name has a row exactly if it was
      ever set; the row's history is versions 1 to the number of times it was set, version `v` reading
      as the `v`-th value, across deletions; and the row is live exactly if the last operation on its
      name set it. */
  lemma RowsAfterRun(t: Tables, u: Unlocked, ops: seq<Op>, outcomes: seq<Outcome>, t2: Tables, name: string)
    requires NoRows(t, u.env) && HistoryOwned(t) && HasEnv(t, u.env)
    requires FreshIds(t, ops) && Ran(t, u, ops, outcomes, t2)
    ensures ValuesSet(ops, name) != [] ==>
              exists id :: RowFor(t2, u, name, id, ValuesSet(ops, name), LastSet(ops, name))
    ensures forall r :: Named(t2, u, false, name, r) ==> LastSet(ops, name)
    ensures forall r :: Named(t2, u, true, name, r) ==> !LastSet(ops, name) && ValuesSet(ops, name) != []
    ensures forall r, r2 :: Named(t2, u, false, name, r) && Named(t2, u, false, name, r2) ==> r == r2
    ensures forall r, r2 :: Named(t2, u, true, name, r) && Named(t2, u, true, name, r2) ==> r == r2
  {
    hide RowFor, Represents, Named, NoneNamed, SomeUnreadable, AfterOp, LastSet, ValuesSet, HistoryOwned;
    EmptyRepresented(t, u);
    RunRefines(t, u, EMPTY, ops, outcomes, t2, u, EMPTY);
    var m := ModelAfter(EMPTY, ops);
    ModelOfRun(ops, name);
    Lookups(t2, u, m, false, name);
    Lookups(t2, u, m, true, name);
    if name in m.ids {
      RowOf(t2, u, m, name);
    }
  }
}
