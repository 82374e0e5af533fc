/** What copying one environment onto another achieves. */
module Promotion {
  import opened Aead
  import opened EnvCommands
  import opened LocalStore
  import opened LocalVault
  import opened Ordering
  import opened Outcomes
  import opened SecretCrypto
  import opened VaultModel
  import opened VaultRuns

  // ---------- entries and maps ----------

  /** The last entry's name does not occur before. */
  lemma LastIsNew(es: seq<Entry>)
    requires es != [] && DistinctKeys(EntryName, es)
    ensures forall e :: e in es[..|es| - 1] ==> e.0 != es[|es| - 1].0
  {
  }

  lemma {:induction false} MapOfDistinct(es: seq<Entry>)
    requires DistinctKeys(EntryName, es)
    ensures forall n, v :: (n, v) in es <==> n in MapOf(es) && MapOf(es)[n] == v
  {
    if es != [] {
      var init, e := es[..|es| - 1], es[|es| - 1];
      MapOfDistinct(init);
      LastIsNew(es);
      assert es == init + [e];
    }
  }

  lemma LastNotMapped(es: seq<Entry>)
    requires es != [] && DistinctKeys(EntryName, es)
    ensures es[|es| - 1].0 !in MapOf(es[..|es| - 1])
  {
    LastIsNew(es);
    MappedIsEntry(es[..|es| - 1], es[|es| - 1].0);
  }

  lemma MappedIsEntry(es: seq<Entry>, name: string)
    requires DistinctKeys(EntryName, es)
    ensures name in MapOf(es) ==> (name, MapOf(es)[name]) in es
  {
  }

  lemma AscendingDistinct(es: seq<Entry>)
    requires Ascending(EntryName, es)
    ensures DistinctKeys(EntryName, es)
  {
  }

  lemma MapOfListed(es: seq<Entry>, values: Values)
    requires Lists(es, values)
    ensures MapOf(es) == values
  {
    AscendingDistinct(es);
    MapOfDistinct(es);
    forall n
      ensures n in MapOf(es) <==> n in values
      ensures n in values ==> MapOf(es)[n] == values[n]
    {
      if n in values {
        assert (n, values[n]) in es;
      }
      if n in MapOf(es) {
        assert (n, MapOf(es)[n]) in es;
      }
    }
  }

  // ---------- the destination afterwards ----------

  /** A name is written exactly if the source has it with a value the destination does not have. */
  predicate Promoted(src: Values, dst: Values, name: string) {
    name in src && !(name in dst && dst[name] == src[name])
  }

  lemma LastOp(m: Model, rest: seq<Op>, op: Op)
    ensures ModelAfter(m, rest + [op]) == AfterOp(ModelAfter(m, rest), op)
  {
  }

  lemma SetAt(m: Model, op: Op, name: string)
    requires op.SetOp? && m.past.Keys == m.ids.Keys
    ensures var m2 := AfterOp(m, op);
            && m2.past.Keys == m2.ids.Keys
            && Lookup(m2.live, name) == (if name == op.name then Some(op.value) else Lookup(m.live, name))
            && Past(m2, name) == (if name == op.name then Past(m, name) + [op.value] else Past(m, name))
  {
  }

  /** After the copy's sets each name has its source value if the source has one, and one version more
      exactly if it was promoted. */
  lemma {:induction false} ValueAfterCopy(m: Model, es: seq<Entry>, newId: nat -> string, dataKey: nat -> Key,
                                          name: string)
    requires m.past.Keys == m.ids.Keys && DistinctKeys(EntryName, es)
    ensures var m2 := ModelAfter(m, CopyOps(es, m.live, newId, dataKey));
            && m2.past.Keys == m2.ids.Keys
            && Lookup(m2.live, name) ==
               (if name in MapOf(es) then Some(MapOf(es)[name]) else Lookup(m.live, name))
            && Past(m2, name) ==
               Past(m, name) + if Promoted(MapOf(es), m.live, name) then [MapOf(es)[name]] else []
  {
    hide AfterOp, Past;
    if es != [] {
      var k, e := |es| - 1, es[|es| - 1];
      var init := es[..k];
      ValueAfterCopy(m, init, newId, dataKey, name);
      LastNotMapped(es);
      var rest := CopyOps(init, m.live, newId, dataKey);
      if !SameValue(m.live, e) {
        var op := SetOp(e.0, e.1, newId(k), dataKey(k));
        LastOp(m, rest, op);
        SetAt(ModelAfter(m, rest), op, name);
      }
    }
  }

  lemma {:induction false} CopyDrawsFresh(t: Tables, es: seq<Entry>, values: Values,
                                          newId: nat -> string, dataKey: nat -> Key)
    requires forall k :: newId(k) !in t.secrets
    requires forall j, k :: newId(j) == newId(k) ==> j == k
    ensures var ops := CopyOps(es, values, newId, dataKey);
            && FreshIds(t, ops)
            && (forall i :: 0 <= i < |ops| ==> ops[i].SetOp? && exists k :: 0 <= k < |es| && ops[i].newId == newId(k))
  {
    if es != [] {
      CopyDrawsFresh(t, es[..|es| - 1], values, newId, dataKey);
    }
  }

  // ---------- the plan ----------

  /** Each list of the plan holds the names that belong there. */
  ghost predicate PlanHolds(es: seq<Entry>, values: Values, plan: CopyPlan) {
    && (forall n :: n in plan.create <==> exists v :: (n, v) in es && n !in values)
    && (forall n :: n in plan.update <==> exists v :: (n, v) in es && n in values && values[n] != v)
    && (forall n :: n in plan.same <==> exists v :: (n, v) in es && n in values && values[n] == v)
  }

  lemma PlanHoldsMore(init: seq<Entry>, e: Entry, values: Values, plan: CopyPlan)
    requires PlanHolds(init, values, plan)
    ensures PlanHolds(init + [e], values, Planned(plan, values, e))
  {
  }

  lemma AllBefore(es: seq<Entry>)
    requires es != [] && Ascending(EntryName, es)
    ensures forall n, v :: (n, v) in es[..|es| - 1] ==> StrLt(n, es[|es| - 1].0)
  {
  }

  lemma {:induction false} PlanNames(es: seq<Entry>, values: Values)
    requires Ascending(EntryName, es)
    ensures var plan := PlanOf(es, values);
            && PlanHolds(es, values, plan)
            && Ascending(Self, plan.create) && Ascending(Self, plan.update) && Ascending(Self, plan.same)
  {
    hide StrLt;
    if es != [] {
      var k, e := |es| - 1, es[|es| - 1];
      var init := es[..k];
      PlanNames(init, values);
      assert es == init + [e];
      var plan := PlanOf(init, values);
      PlanHoldsMore(init, e, values, plan);
      AllBefore(es);
      LastIsGreatest(plan.create, e.0);
      LastIsGreatest(plan.update, e.0);
      LastIsGreatest(plan.same, e.0);
    }
  }

  lemma LastIsGreatest(s: seq<string>, n: string)
    requires Ascending(Self, s) && forall x :: x in s ==> StrLt(x, n)
    ensures Ascending(Self, s + [n])
  {
  }

  /** The plan for the two maps: the three lists part the source's names. */
  ghost predicate PlanFor(src: Values, dst: Values, plan: CopyPlan) {
    && (forall n :: n in plan.create <==> n in src && n !in dst)
    && (forall n :: n in plan.update <==> n in src && n in dst && dst[n] != src[n])
    && (forall n :: n in plan.same <==> n in src && n in dst && dst[n] == src[n])
    && Ascending(Self, plan.create) && Ascending(Self, plan.update) && Ascending(Self, plan.same)
  }

  /** The three lists part the source's names: new to the destination, different there, equal there;
      each is ascending, so no name occurs twice. */
  lemma PlanPartsSource(es: seq<Entry>, src: Values, dst: Values)
    requires Lists(es, src)
    ensures PlanFor(src, dst, PlanOf(es, dst))
  {
    hide StrLt;
    PlanNames(es, dst);
    forall n | n in src
      ensures (n, src[n]) in es
    {
    }
  }

  /** The statuses of a comparison are the lists of the plan. */
  lemma DiffMatchesPlan(es: seq<Entry>, src: Values, dst: Values, diff: seq<DiffEntry>, k: nat)
    requires Lists(es, src) && IsDiff(src, dst, diff) && k < |diff|
    ensures var plan := PlanOf(es, dst);
            && (diff[k].status == OnlyLeft <==> diff[k].name in plan.create)
            && (diff[k].status == Differs <==> diff[k].name in plan.update)
            && (diff[k].status == Equal <==> diff[k].name in plan.same)
            && (diff[k].status == OnlyRight <==> diff[k].name !in src)
  {
    hide Lists, PlanOf, ShowsBoth, StrLt;
    PlanPartsSource(es, src, dst);
    assert NamedIn(diff, diff[k].name);
    ShownStatus(src, dst, diff[k]);
  }

  lemma ShownStatus(left: Values, right: Values, e: DiffEntry)
    requires ShowsBoth(left, right, e) && (e.name in left || e.name in right)
    ensures e.status == OnlyLeft <==> e.name in left && e.name !in right
    ensures e.status == OnlyRight <==> e.name !in left
    ensures e.status == Equal <==> e.name in left && e.name in right && left[e.name] == right[e.name]
    ensures e.status == Differs <==> e.name in left && e.name in right && left[e.name] != right[e.name]
  {
    if e.name in left {
      assert e.left == Some(left[e.name]);
    }
    if e.name in right {
      assert e.right == Some(right[e.name]);
    }
  }

  lemma {:induction false} AllSame(es: seq<Entry>, values: Values, newId: nat -> string, dataKey: nat -> Key)
    requires forall e :: e in es ==> SameValue(values, e)
    ensures CopyOps(es, values, newId, dataKey) == []
    ensures PlanOf(es, values).create == [] && PlanOf(es, values).update == []
  {
    if es != [] {
      assert es[|es| - 1] in es;
      assert forall e :: e in es[..|es| - 1] ==> e in es;
      AllSame(es[..|es| - 1], values, newId, dataKey);
    }
  }

  lemma NothingToCopy(es: seq<Entry>, src: Values, dst: Values, newId: nat -> string, dataKey: nat -> Key)
    requires Lists(es, src)
    ensures CopyOps(es, dst + src, newId, dataKey) == []
    ensures PlanOf(es, dst + src).create == [] && PlanOf(es, dst + src).update == []
  {
    AllSame(es, dst + src, newId, dataKey);
  }

  // ---------- the whole command ----------

  /** Environment ids are a primary key. */
  ghost predicate EnvIdsDistinct(t: Tables) {
    forall a, b :: a in t.environments && b in t.environments && t.environments[a].id == t.environments[b].id ==> a == b
  }

  ghost predicate DrawsFresh(t: Tables, newId: nat -> string) {
    && (forall k :: newId(k) !in t.secrets)
    && (forall j, k :: newId(j) == newId(k) ==> j == k)
  }

  /** Both environments open and stand for maps, and the ids to be drawn are free. */
  ghost predicate Ready(t: Tables, keypair: Keypair, src: string, dst: string, newId: nat -> string,
                        us: Unlocked, ms: Model, u: Unlocked, md: Model)
  {
    && src != dst
    && EnvIdsDistinct(t) && HistoryOwned(t) && DrawsFresh(t, newId)
    && Opens(t, keypair, src, us) && Represents(t, us, ms)
    && Opens(t, keypair, dst, u) && Represents(t, u, md)
  }

  lemma EntriesSucceed(t: Tables, keypair: Keypair, name: string, u: Unlocked, m: Model,
                       r: Result<seq<Entry>, VaultError>)
    requires Opens(t, keypair, name, u) && Represents(t, u, m) && EntriesFor(t, keypair, name, r)
    ensures r.Ok? && Lists(r.value, m.live)
  {
    hide Represents, Reads, OpenVaultKey, Lists;
    assert Reads(t, u, r);
    EntriesListMap(t, u, m, r);
  }

  lemma OpensOneWay(t: Tables, keypair: Keypair, name: string, u: Unlocked, v: Unlocked)
    requires Opens(t, keypair, name, u) && Opens(t, keypair, name, v)
    ensures u == v && HasEnv(t, u.env)
  {
  }

  /** What a copy reads is the two maps. */
  lemma CopyReadsMaps(t: Tables, keypair: Keypair, src: string, dst: string, newId: nat -> string,
                      us: Unlocked, ms: Model, u: Unlocked, md: Model,
                      v: Unlocked, se: seq<Entry>, de: seq<Entry>)
    requires Ready(t, keypair, src, dst, newId, us, ms, u, md) && CopyReads(t, keypair, src, dst, v, se, de)
    ensures v == u && us.env != u.env && HasEnv(t, u.env)
    ensures Lists(se, ms.live) && MapOf(se) == ms.live && MapOf(de) == md.live
  {
    hide Represents, Reads, OpenVaultKey, Lists;
    OpensOneWay(t, keypair, dst, u, v);
    EntriesSucceed(t, keypair, src, us, ms, Ok(se));
    EntriesListMap(t, u, md, Ok(de));
    MapOfListed(se, ms.live);
    MapOfListed(de, md.live);
  }

  /** Comparing two environments that stand for maps succeeds, and compares the maps. */
  lemma DiffComparesMaps(t: Tables, keypair: Keypair, left: string, right: string,
                         r: Result<seq<DiffEntry>, VaultError>,
                         u: Unlocked, m: Model, v: Unlocked, n: Model)
    requires Opens(t, keypair, left, u) && Represents(t, u, m)
    requires Opens(t, keypair, right, v) && Represents(t, v, n)
    requires DiffOutcome(t, keypair, left, right, r)
    ensures r.Ok?
    ensures forall j, k :: 0 <= j < k < |r.value| ==> StrLt(r.value[j].name, r.value[k].name)
    ensures forall name :: NamedIn(r.value, name) <==> name in m.live || name in n.live
    ensures forall e, v :: e in r.value ==>
              (e.left == Some(v) <==> e.name in m.live && m.live[e.name] == v)
    ensures forall e, v :: e in r.value ==>
              (e.right == Some(v) <==> e.name in n.live && n.live[e.name] == v)
    ensures forall e :: e in r.value ==>
              && (e.status == OnlyLeft <==> e.right.None?)
              && (e.status == OnlyRight <==> e.left.None?)
              && (e.status == Equal <==> e.left.Some? && e.right.Some? && e.left == e.right)
              && (e.status == Differs <==> e.left.Some? && e.right.Some? && e.left != e.right)
  {
    hide Represents, EntriesFor, Opens, Lists, StrLt, MapOf, NamedIn;
    match r
    case Ok(diff) =>
      var le, re :| EntriesFor(t, keypair, left, Ok(le)) && EntriesFor(t, keypair, right, Ok(re)) &&
                    IsDiff(MapOf(le), MapOf(re), diff);
      EntriesSucceed(t, keypair, left, u, m, Ok(le));
      EntriesSucceed(t, keypair, right, v, n, Ok(re));
      MapOfListed(le, m.live);
      MapOfListed(re, n.live);
    case Err(e) =>
      NeverUnread(t, keypair, left, u, m, e);
      NeverUnread(t, keypair, right, v, n, e);
  }

  lemma NeverUnread(t: Tables, keypair: Keypair, name: string, u: Unlocked, m: Model, e: VaultError)
    requires Opens(t, keypair, name, u) && Represents(t, u, m)
    ensures !EntriesFor(t, keypair, name, Err(e))
  {
    hide Represents, EntriesFor, Opens, Lists;
    if EntriesFor(t, keypair, name, Err(e)) {
      EntriesSucceed(t, keypair, name, u, m, Err(e));
    }
  }

  /** With ids nobody has, no set of a run fails. */
  lemma NoSetFails(t: Tables, u: Unlocked, m: Model, ops: seq<Op>, n: nat, t2: Tables, e: VaultError)
    requires Represents(t, u, m) && HistoryOwned(t) && HasEnv(t, u.env) && FreshIds(t, ops)
    requires n < |ops| && ops[n].SetOp? && Ran(t, u, ops[..n], AllDone(n), t2)
    ensures !Step(t2, u, ops[n], t2, Failed(e))
  {
    hide Represents, HistoryOwned, Ran, Step, TouchesOnly, Advanced;
    RunRefines(t, u, m, ops[..n], AllDone(n), t2, u, m);
    if Step(t2, u, ops[n], t2, Failed(e)) {
      StepRefines(t2, u, ModelAfter(m, ops[..n]), ops[n], t2, Failed(e));
    }
  }

  lemma NotInPart(t: Tables, keypair: Keypair, src: string, dst: string,
                  newId: nat -> string, dataKey: nat -> Key, t2: Tables, e: VaultError,
                  us: Unlocked, ms: Model, u: Unlocked, md: Model,
                  v: Unlocked, se: seq<Entry>, de: seq<Entry>, n: nat)
    requires Ready(t, keypair, src, dst, newId, us, ms, u, md)
    ensures !CopiesInPart(t, keypair, src, dst, newId, dataKey, t2, e, v, se, de, n)
  {
    hide Represents, CopyReads, HistoryOwned, Ran, Step, FreshIds, Opens, EnvIdsDistinct;
    if CopiesInPart(t, keypair, src, dst, newId, dataKey, t2, e, v, se, de, n) {
      CopyReadsMaps(t, keypair, src, dst, newId, us, ms, u, md, v, se, de);
      CopyDrawsFresh(t, se, MapOf(de), newId, dataKey);
      NoSetFails(t, u, md, CopyOps(se, MapOf(de), newId, dataKey), n, t2, e);
    }
  }

  lemma ReadingSucceeds(t: Tables, keypair: Keypair, src: string, dst: string, newId: nat -> string,
                        us: Unlocked, ms: Model, u: Unlocked, md: Model, e: VaultError)
    requires Ready(t, keypair, src, dst, newId, us, ms, u, md)
    ensures !StopsReading(t, keypair, src, dst, e)
  {
    hide Represents, EntriesFor, Opens;
    NeverUnread(t, keypair, src, us, ms, e);
    NeverUnread(t, keypair, dst, u, md, e);
  }

  /** A copy between two environments that stand for maps succeeds. */
  lemma CopySucceeds(t: Tables, keypair: Keypair, src: string, dst: string, apply: bool,
                     newId: nat -> string, dataKey: nat -> Key, t2: Tables, r: Result<CopyPlan, VaultError>,
                     us: Unlocked, ms: Model, u: Unlocked, md: Model)
    requires Ready(t, keypair, src, dst, newId, us, ms, u, md)
    requires CopyOutcome(t, keypair, src, dst, apply, newId, dataKey, t2, r)
    ensures r.Ok?
  {
    hide Represents, Copies, CopiesInPart, StopsReading, Opens, HistoryOwned, EnvIdsDistinct, DrawsFresh;
    if r.Err? {
      ReadingSucceeds(t, keypair, src, dst, newId, us, ms, u, md, r.error);
      forall v, se, de, n
        ensures !CopiesInPart(t, keypair, src, dst, newId, dataKey, t2, r.error, v, se, de, n)
      {
        NotInPart(t, keypair, src, dst, newId, dataKey, t2, r.error, us, ms, u, md, v, se, de, n);
      }
    }
  }

  lemma OnePlan(src: Values, dst: Values, plan: CopyPlan, other: CopyPlan)
    requires PlanFor(src, dst, plan) && PlanFor(src, dst, other)
    ensures plan == other
  {
    hide StrLt;
    AscendingUnique(Self, plan.create, other.create);
    AscendingUnique(Self, plan.update, other.update);
    AscendingUnique(Self, plan.same, other.same);
  }

  /** Applying a copy succeeds, makes the destination's map its own overridden by the source's, gives
      one more version to exactly the names the plan lists as new or changed, and leaves the source
      alone. */
  lemma CopyPromotes(t: Tables, keypair: Keypair, src: string, dst: string,
                     newId: nat -> string, dataKey: nat -> Key, t2: Tables, r: Result<CopyPlan, VaultError>,
                     us: Unlocked, ms: Model, u: Unlocked, md: Model)
    returns (m2: Model)
    requires Ready(t, keypair, src, dst, newId, us, ms, u, md)
    requires CopyOutcome(t, keypair, src, dst, true, newId, dataKey, t2, r)
    ensures r.Ok? && PlanFor(ms.live, md.live, r.value)
    ensures HistoryOwned(t2) && t2.environments == t.environments
    ensures Represents(t2, u, m2) && Represents(t2, us, ms)
    ensures m2.live == md.live + ms.live
    ensures forall n :: (n in r.value.create || n in r.value.update) <==> Promoted(ms.live, md.live, n)
    ensures forall n :: Past(m2, n) == Past(md, n) + if Promoted(ms.live, md.live, n) then [ms.live[n]] else []
  {
    hide Represents, CopyReads, HistoryOwned, Ran, FreshIds, AfterOp, Lists, Past, Opens, EnvIdsDistinct;
    CopySucceeds(t, keypair, src, dst, true, newId, dataKey, t2, r, us, ms, u, md);
    var v, se, de :| Copies(t, keypair, src, dst, true, newId, dataKey, r.value, t2, v, se, de);
    CopyReadsMaps(t, keypair, src, dst, newId, us, ms, u, md, v, se, de);
    var ops := CopyOps(se, md.live, newId, dataKey);
    CopyDrawsFresh(t, se, md.live, newId, dataKey);
    RunRefines(t, u, md, ops, AllDone(|ops|), t2, us, ms);
    m2 := ModelAfter(md, ops);
    PlanPartsSource(se, ms.live, md.live);
    ModelShape(t, u, md);
    DistinctOf(se, ms.live);
    forall n
      ensures Lookup(m2.live, n) == if n in ms.live then Some(ms.live[n]) else Lookup(md.live, n)
      ensures Past(m2, n) == Past(md, n) + if Promoted(ms.live, md.live, n) then [ms.live[n]] else []
    {
      ValueAfterCopy(md, se, newId, dataKey, n);
    }
    SameMap(m2.live, md.live, ms.live);
  }

  /** Without `apply` a copy succeeds, changes nothing, and gives the plan applying would give. */
  lemma DryRunPredicts(t: Tables, keypair: Keypair, src: string, dst: string,
                       newId: nat -> string, dataKey: nat -> Key, t2: Tables, r: Result<CopyPlan, VaultError>,
                       applied: Tables, applying: Result<CopyPlan, VaultError>,
                       us: Unlocked, ms: Model, u: Unlocked, md: Model)
    requires Ready(t, keypair, src, dst, newId, us, ms, u, md)
    requires CopyOutcome(t, keypair, src, dst, false, newId, dataKey, t2, r)
    requires CopyOutcome(t, keypair, src, dst, true, newId, dataKey, applied, applying)
    ensures r.Ok? && t2 == t && applying == r
  {
    hide CopyReads, Lists, PlanFor, MapOf, Ready;
    CopySucceeds(t, keypair, src, dst, false, newId, dataKey, t2, r, us, ms, u, md);
    var v, se, de :| Copies(t, keypair, src, dst, false, newId, dataKey, r.value, t2, v, se, de);
    CopyReadsMaps(t, keypair, src, dst, newId, us, ms, u, md, v, se, de);
    PlanPartsSource(se, ms.live, md.live);
    var m2 := CopyPromotes(t, keypair, src, dst, newId, dataKey, applied, applying, us, ms, u, md);
    OnePlan(ms.live, md.live, r.value, applying.value);
  }

  /** The same command once more, with fresh ids of its own, succeeds, writes nothing, and finds nothing
      new and nothing changed. */
  lemma CopyAgain(t: Tables, keypair: Keypair, src: string, dst: string,
                  newId: nat -> string, dataKey: nat -> Key, t2: Tables, r: Result<CopyPlan, VaultError>,
                  us: Unlocked, ms: Model, u: Unlocked, md: Model,
                  apply: bool, laterId: nat -> string, laterKey: nat -> Key, t3: Tables,
                  again: Result<CopyPlan, VaultError>)
    requires Ready(t, keypair, src, dst, newId, us, ms, u, md)
    requires CopyOutcome(t, keypair, src, dst, true, newId, dataKey, t2, r)
    requires DrawsFresh(t2, laterId)
    requires CopyOutcome(t2, keypair, src, dst, apply, laterId, laterKey, t3, again)
    ensures again.Ok? && t3 == t2 && again.value.create == [] && again.value.update == []
  {
    hide CopyReads, Lists, MapOf, Represents, HistoryOwned, CopyOps, PlanFor, PlanOf, DrawsFresh;
    var m2 := CopyPromotes(t, keypair, src, dst, newId, dataKey, t2, r, us, ms, u, md);
    assert Ready(t2, keypair, src, dst, laterId, us, ms, u, m2);
    CopySucceeds(t2, keypair, src, dst, apply, laterId, laterKey, t3, again, us, ms, u, m2);
    var v, se, de :| Copies(t2, keypair, src, dst, apply, laterId, laterKey, again.value, t3, v, se, de);
    CopyReadsMaps(t2, keypair, src, dst, laterId, us, ms, u, m2, v, se, de);
    NothingToCopy(se, ms.live, md.live, laterId, laterKey);
  }

  lemma DistinctOf(es: seq<Entry>, values: Values)
    requires Lists(es, values)
    ensures DistinctKeys(EntryName, es)
  {
  }

  lemma SameMap(a: Values, dst: Values, src: Values)
    requires forall n :: Lookup(a, n) == if n in src then Some(src[n]) else Lookup(dst, n)
    ensures a == dst + src
  {
    forall n
      ensures n in a <==> n in dst + src
      ensures n in a ==> a[n] == (dst + src)[n]
    {
      assert Lookup(a, n) == if n in src then Some(src[n]) else Lookup(dst, n);
    }
  }
}
