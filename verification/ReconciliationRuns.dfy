/** What holds in every state the coordinator can reach, however many workers hold old tickets. */
module ReconciliationRuns {
  import opened Outcomes
  import opened Ordering
  import opened Text
  import opened Coverage
  import opened CoverageStore
  import opened Collection
  import opened StoredForms
  import opened Reconciliation
  import Json

  // ---------- the invariant ----------

  ghost predicate CoordinatorInv(db: Db, b: string) {
    && (b in db.coordinators <==> b in db.store.heads)
    && (b in db.coordinators ==>
          var c := db.coordinators[b];
          && 1 <= c.generation && 0 <= c.epoch
          && (c.currentAttempt.Some? ==>
                && (b, c.currentAttempt.value) in db.attempts
                && db.attempts[(b, c.currentAttempt.value)].status == Pending))
  }

  ghost predicate SourceAt(sources: map<string, SourceRow>, b: string, g: Int64, s: string) {
    s in sources && SourceOf(sources[s], b) && sources[s].generation == g
  }

  ghost predicate HasGeneration(sources: map<string, SourceRow>, b: string, g: Int64) {
    exists s :: SourceAt(sources, b, g, s)
  }

  /** Every generation up to the current one registered a source. */
  ghost predicate GenerationsInv(db: Db, b: string) {
    forall g: Int64 :: 1 <= g <= CoordinatorAt(db, b).generation ==> HasGeneration(db.sources, b, g)
  }

  ghost predicate SourceInv(db: Db, s: string)
    requires s in db.sources
  {
    var row := db.sources[s];
    var b := row.binding.beneficiaryId;
    && row.binding.sourceId == s
    && ValidateBinding(row.binding).Ok?
    && b in db.coordinators
    && 1 <= row.generation <= db.coordinators[b].generation
    && row.projectionRevision.Some?
    && Publishes(db.store.revisions, b, RegistrationOp(row.operationId), row.projectionRevision.value)
    && db.store.revisions[(b, row.projectionRevision.value)].status == "unavailable"
  }

  ghost predicate OneRegistrationEach(sources: map<string, SourceRow>) {
    forall b, op, s, t :: Registers(sources, b, op, s) && Registers(sources, b, op, t) ==> s == t
  }

  ghost function BindingsAt(db: Db, b: string, generation: Int64): seq<SourceBinding> {
    BindingsOf(db.sources, SourceKeysUpTo(db.sources, b, generation))
  }

  /** A completed attempt holds the result of a batch, and published that batch's projection. */
  ghost predicate CompletedBy(db: Db, b: string, id: string, a: AttemptRow, obs: seq<Observation>) {
    && a.evidence.Some? && a.result.Some? && a.revision.Some?
    && !Blank(a.evidence.value)
    && Publishes(db.store.revisions, b, CollectionOp(id), a.revision.value)
    && var collected := CanonicalCollection(b, BindingsAt(db, b, a.generation), obs, a.evidence.value);
    && collected.Ok?
    && collected.value.0 == a.result.value
    && CanonicalOf(b, collected.value.1).Ok?
    && Records(db.store, b, a.revision.value, CanonicalOf(b, collected.value.1).value)
  }

  ghost predicate Unfinished(a: AttemptRow) {
    a.evidence.None? && a.result.None? && a.revision.None?
  }

  ghost predicate AttemptInv(db: Db, b: string, id: string)
    requires (b, id) in db.attempts
  {
    var a := db.attempts[(b, id)];
    var c := CoordinatorAt(db, b);
    var head := HeadOf(db.store, b);
    && b in db.coordinators && !Blank(b) && !Blank(id)
    && 1 <= a.epoch <= c.epoch
    && 1 <= a.generation <= c.generation
    && a.bindings == BindingsJson(BindingsAt(db, b, a.generation))
    && a.expected.Some? && head.Some? && 1 <= a.expected.value <= head.value
    && match a.status
       case Pending =>
         && Unfinished(a)
         && c.currentAttempt == Some(id)
         && a.generation == c.generation && a.epoch == c.epoch && a.expected == head
       case Superseded => Unfinished(a)
       case Completed =>
         && (exists obs :: CompletedBy(db, b, id, a, obs))
         && a.revision.value == a.expected.value + 1
         && (a.revision == head ==> a.generation == c.generation)
  }

  /** Every revision was published by one registration or by one completed attempt. */
  ghost predicate RevisionInv(db: Db, b: string, r: Int64)
    requires (b, r) in db.store.revisions
  {
    var op := db.store.revisions[(b, r)].operationId;
    || (exists s :: s in db.sources && SourceOf(db.sources[s], b)
                    && op == RegistrationOp(db.sources[s].operationId))
    || (exists id :: (b, id) in db.attempts && op == CollectionOp(id)
                     && db.attempts[(b, id)].status == Completed && db.attempts[(b, id)].revision == Some(r))
  }

  ghost predicate Coordinators(db: Db) {
    forall b :: CoordinatorInv(db, b)
  }

  ghost predicate Generations(db: Db) {
    forall b :: GenerationsInv(db, b)
  }

  ghost predicate Sources(db: Db) {
    forall s :: s in db.sources ==> SourceInv(db, s)
  }

  ghost predicate Attempts(db: Db) {
    forall b, id :: (b, id) in db.attempts ==> AttemptInv(db, b, id)
  }

  ghost predicate Revisions(db: Db) {
    forall b, r: Int64 :: (b, r) in db.store.revisions ==> RevisionInv(db, b, r)
  }

  ghost predicate Inv(db: Db) {
    && LogInv(db.store)
    && Coordinators(db)
    && Generations(db)
    && Sources(db)
    && OneRegistrationEach(db.sources)
    && Attempts(db)
    && Revisions(db)
  }

  const EMPTY := Db(Tables(map[], map[], map[]), map[], map[], map[])

  lemma EmptyInv()
    ensures Inv(EMPTY)
  {
  }

  // ---------- operation names ----------

  lemma OperationNames(x: string, y: string)
    ensures RegistrationOp(x) != CollectionOp(y)
    ensures RegistrationOp(x) == RegistrationOp(y) ==> x == y
    ensures CollectionOp(x) == CollectionOp(y) ==> x == y
    ensures !Blank(RegistrationOp(x)) && !Blank(CollectionOp(x))
  {
    assert RegistrationOp(x)[0] == 's' && CollectionOp(y)[0] == 'c' && CollectionOp(x)[0] == 'c';
    assert RegistrationOp(x)[|"source-registration:"|..] == x;
    assert RegistrationOp(y)[|"source-registration:"|..] == y;
    assert CollectionOp(x)[|"collection:"|..] == x && CollectionOp(y)[|"collection:"|..] == y;
    assert 's' in RegistrationOp(x) && 'c' in CollectionOp(x);
  }

  /** An operation that has no source and no completed attempt behind it is not in the log. */
  lemma RegistrationUnpublished(db: Db, b: string, op: string)
    requires Revisions(db) && forall s :: !Registers(db.sources, b, op, s)
    ensures Unpublished(db.store, b, RegistrationOp(op))
  {
    forall r: Int64 ensures !Publishes(db.store.revisions, b, RegistrationOp(op), r) {
      if Publishes(db.store.revisions, b, RegistrationOp(op), r) {
        assert RevisionInv(db, b, r);
        if s :| s in db.sources && SourceOf(db.sources[s], b)
                && RegistrationOp(op) == RegistrationOp(db.sources[s].operationId) {
          OperationNames(op, db.sources[s].operationId);
          assert Registers(db.sources, b, op, s);
        } else {
          var id :| (b, id) in db.attempts && RegistrationOp(op) == CollectionOp(id);
          OperationNames(op, id);
        }
      }
    }
  }

  lemma UnfinishedUnpublished(db: Db, b: string, id: string)
    requires Revisions(db) && (b, id) in db.attempts && db.attempts[(b, id)].status != Completed
    ensures Unpublished(db.store, b, CollectionOp(id))
  {
    forall r: Int64 ensures !Publishes(db.store.revisions, b, CollectionOp(id), r) {
      if Publishes(db.store.revisions, b, CollectionOp(id), r) {
        assert RevisionInv(db, b, r);
        if s :| s in db.sources && SourceOf(db.sources[s], b)
                && CollectionOp(id) == RegistrationOp(db.sources[s].operationId) {
          OperationNames(db.sources[s].operationId, id);
        } else {
          var other :| (b, other) in db.attempts && CollectionOp(id) == CollectionOp(other)
                       && db.attempts[(b, other)].status == Completed;
          OperationNames(id, other);
        }
      }
    }
  }

  lemma CurrentIsHead(db: Db, b: string)
    requires LogInv(db.store) && Coordinators(db) && !Blank(b)
    ensures CurrentRevision(db.store, b) == Ok(HeadOf(db.store, b))
    ensures b in db.coordinators <==> HeadOf(db.store, b).Some?
  {
    assert Numbered(db.store, b);
    assert CoordinatorInv(db, b);
  }

  // ---------- registering ----------

  ghost predicate RegisterStep(db: Db, op: string, x: SourceBinding, after: Db, revision: Int64) {
    var b, g := x.beneficiaryId, CoordinatorAt(db, x.beneficiaryId).generation;
    && !Blank(op) && ValidateBinding(x).Ok?
    && x.sourceId !in db.sources
    && (forall s :: !Registers(db.sources, b, op, s))
    && g + 1 <= I64_MAX
    && AppendStep(db.store, RegistrationRequest(x, op, HeadOf(db.store, b)), revision, after.store)
    && after == Registered(db, x, op, g + 1, after.store, revision)
  }

  lemma RegisterCases(db: Db, op: string, x: SourceBinding)
    requires Inv(db) && RegisterSource(db, op, x).Ok?
    ensures var (after, receipt) := RegisterSource(db, op, x).value;
            match receipt.outcome
            case AlreadyApplied =>
              && after == db
              && Registers(db.sources, x.beneficiaryId, op, x.sourceId)
              && receipt == RegistrationReceipt(x.sourceId, db.sources[x.sourceId].generation,
                                                db.sources[x.sourceId].projectionRevision, AlreadyApplied)
            case Applied =>
              && receipt.projectionRevision.Some?
              && RegisterStep(db, op, x, after, receipt.projectionRevision.value)
              && receipt.sourceId == x.sourceId
              && receipt.generation == after.sources[x.sourceId].generation
  {
    RegisterReduces(db, op, x);
    if FindRegistration(db.sources, x.beneficiaryId, op).None? {
      RegistrationUnpublished(db, x.beneficiaryId, op);
      RegisterNewCases(db, op, x);
      var (after, receipt) := RegisterNew(db, op, x, HeadOf(db.store, x.beneficiaryId)).value;
      FreshRegistration(db, op, x, after, receipt);
    }
  }

  lemma RegisterLocks(db: Db, op: string, x: SourceBinding)
    requires LogInv(db.store) && Coordinators(db) && !Blank(op) && ValidateBinding(x).Ok?
    ensures RegisterSource(db, op, x) == RegisterLocked(db, op, x, HeadOf(db.store, x.beneficiaryId))
  {
    CurrentIsHead(db, x.beneficiaryId);
    assert CoordinatorInv(db, x.beneficiaryId);
  }

  lemma RegisterRepeats(db: Db, op: string, x: SourceBinding, s: string)
    requires Sources(db) && Registers(db.sources, x.beneficiaryId, op, s)
    ensures RegisterAgain(db, x, db.sources[s]) ==
            if db.sources[s].binding != x then Err(RegistrationConflict)
            else Ok((db, RegistrationReceipt(x.sourceId, db.sources[s].generation,
                                             db.sources[s].projectionRevision, AlreadyApplied)))
    ensures db.sources[s].binding == x ==> s == x.sourceId
  {
    assert SourceInv(db, s);
    assert x.beneficiaryId in db.coordinators;
    assert db.coordinators[x.beneficiaryId := CoordinatorAt(db, x.beneficiaryId)] == db.coordinators;
  }

  lemma RegisterReduces(db: Db, op: string, x: SourceBinding)
    requires Inv(db) && RegisterSource(db, op, x).Ok?
    ensures !Blank(op) && ValidateBinding(x).Ok?
    ensures match FindRegistration(db.sources, x.beneficiaryId, op)
            case Some(s) =>
              && s == x.sourceId && Registers(db.sources, x.beneficiaryId, op, s)
              && RegisterSource(db, op, x).value ==
                 (db, RegistrationReceipt(x.sourceId, db.sources[s].generation,
                                          db.sources[s].projectionRevision, AlreadyApplied))
            case None =>
              RegisterSource(db, op, x) == RegisterNew(db, op, x, HeadOf(db.store, x.beneficiaryId))
  {
    RegisterLocks(db, op, x);
    if FindRegistration(db.sources, x.beneficiaryId, op).Some? {
      RegisterRepeats(db, op, x, FindRegistration(db.sources, x.beneficiaryId, op).value);
    }
  }

  lemma FreshRegistration(db: Db, op: string, x: SourceBinding, after: Db, receipt: RegistrationReceipt)
    requires !Blank(op) && ValidateBinding(x).Ok? && x.sourceId !in db.sources
    requires forall s :: !Registers(db.sources, x.beneficiaryId, op, s)
    requires receipt.projectionRevision.Some?
    requires receipt.generation == CoordinatorAt(db, x.beneficiaryId).generation + 1
    requires AppendStep(db.store, RegistrationRequest(x, op, HeadOf(db.store, x.beneficiaryId)),
                        receipt.projectionRevision.value, after.store)
    requires after == Registered(db, x, op, receipt.generation, after.store,
                                 receipt.projectionRevision.value)
    ensures RegisterStep(db, op, x, after, receipt.projectionRevision.value)
    ensures receipt.generation == after.sources[x.sourceId].generation
  {
  }

  lemma RegisterNewCases(db: Db, op: string, x: SourceBinding)
    requires Inv(db) && Unpublished(db.store, x.beneficiaryId, RegistrationOp(op))
    requires RegisterNew(db, op, x, HeadOf(db.store, x.beneficiaryId)).Ok?
    ensures var (after, receipt) := RegisterNew(db, op, x, HeadOf(db.store, x.beneficiaryId)).value;
            && receipt.outcome == Applied
            && receipt.projectionRevision.Some?
            && receipt.sourceId == x.sourceId
            && receipt.generation == CoordinatorAt(db, x.beneficiaryId).generation + 1
            && x.sourceId !in db.sources
            && AppendStep(db.store, RegistrationRequest(x, op, HeadOf(db.store, x.beneficiaryId)),
                          receipt.projectionRevision.value, after.store)
            && after == Registered(db, x, op, receipt.generation, after.store,
                                   receipt.projectionRevision.value)
  {
    PublishCases(db.store, RegistrationRequest(x, op, HeadOf(db.store, x.beneficiaryId)));
  }

  // ---------- what stays true of a row while others change ----------

  lemma BindingsStable(
    sources: map<string, SourceRow>, later: map<string, SourceRow>, b: string, g: Int64)
    requires SourceKeysUpTo(sources, b, g) == SourceKeysUpTo(later, b, g)
    requires forall s :: s in SourceKeysUpTo(sources, b, g) ==> later[s].binding == sources[s].binding
    ensures BindingsOf(sources, SourceKeysUpTo(sources, b, g)) == BindingsOf(later, SourceKeysUpTo(later, b, g))
  {
  }

  lemma CompletedStable(db: Db, after: Db, b: string, id: string, a: AttemptRow)
    requires exists obs :: CompletedBy(db, b, id, a, obs)
    requires Extends(db.store, after.store) && BindingsAt(after, b, a.generation) == BindingsAt(db, b, a.generation)
    ensures exists obs :: CompletedBy(after, b, id, a, obs)
  {
    var obs :| CompletedBy(db, b, id, a, obs);
    assert CompletedBy(after, b, id, a, obs);
  }

  lemma AttemptStable(db: Db, after: Db, b: string, id: string)
    requires (b, id) in db.attempts && AttemptInv(db, b, id)
    requires (b, id) in after.attempts && after.attempts[(b, id)] == db.attempts[(b, id)]
    requires Extends(db.store, after.store)
    requires b in after.coordinators
    requires db.coordinators[b].epoch <= after.coordinators[b].epoch
    requires db.coordinators[b].generation <= after.coordinators[b].generation
    requires BindingsAt(after, b, db.attempts[(b, id)].generation) == BindingsAt(db, b, db.attempts[(b, id)].generation)
    requires db.attempts[(b, id)].status == Pending ==>
               after.coordinators[b] == db.coordinators[b] && HeadOf(after.store, b) == HeadOf(db.store, b)
    requires db.attempts[(b, id)].status == Completed && db.attempts[(b, id)].revision == HeadOf(after.store, b) ==>
               after.coordinators[b].generation == db.attempts[(b, id)].generation
    ensures AttemptInv(after, b, id)
  {
    var a := db.attempts[(b, id)];
    assert b in db.store.heads;
    if a.status == Completed {
      CompletedStable(db, after, b, id, a);
    }
  }

  // ---------- registering keeps the invariant ----------

  /** What one registration changes, table by table. */
  ghost predicate RegisterEffect(db: Db, op: string, x: SourceBinding, after: Db, revision: Int64) {
    var b, g := x.beneficiaryId, CoordinatorAt(db, x.beneficiaryId).generation;
    && !Blank(op) && ValidateBinding(x).Ok?
    && x.sourceId !in db.sources
    && (forall s :: !Registers(db.sources, b, op, s))
    && g + 1 <= I64_MAX
    && LogInv(after.store) && Extends(db.store, after.store)
    && after.store.heads == db.store.heads[b := Some(revision)]
    && (HeadOf(db.store, b).Some? ==> revision == HeadOf(db.store, b).value + 1)
    && after.store.revisions.Keys == db.store.revisions.Keys + {(b, revision)}
    && after.store.revisions[(b, revision)].operationId == RegistrationOp(op)
    && after.store.revisions[(b, revision)].status == "unavailable"
    && after.coordinators ==
         db.coordinators[b := CoordinatorRow(g + 1, CoordinatorAt(db, b).epoch, None)]
    && after.sources == db.sources[x.sourceId := SourceRow(x, op, g + 1, Some(revision))]
    && after.attempts == SupersedeAll(db.attempts, b)
  }

  lemma RegisterHasEffect(db: Db, op: string, x: SourceBinding, after: Db, revision: Int64)
    requires Inv(db) && RegisterStep(db, op, x, after, revision)
    ensures RegisterEffect(db, op, x, after, revision)
  {
    var q := RegistrationRequest(x, op, HeadOf(db.store, x.beneficiaryId));
    AppendedRow(db.store, q, revision, after.store);
    AppendedKeepsLog(db.store, q, revision, after.store);
    AppendedExtends(db.store, q, revision, after.store);
  }

  lemma NewSourceLater(
    sources: map<string, SourceRow>, x: string, row: SourceRow, b: string, g: Int64)
    requires x !in sources && (SourceOf(row, b) ==> g < row.generation)
    ensures SourceKeysUpTo(sources[x := row], b, g) == SourceKeysUpTo(sources, b, g)
    ensures BindingsOf(sources[x := row], SourceKeysUpTo(sources[x := row], b, g)) ==
            BindingsOf(sources, SourceKeysUpTo(sources, b, g))
  {
    BindingsStable(sources, sources[x := row], b, g);
  }

  lemma RegisterBindings(db: Db, op: string, x: SourceBinding, after: Db, revision: Int64, b: string, g: Int64)
    requires RegisterEffect(db, op, x, after, revision)
    requires g <= CoordinatorAt(db, b).generation
    ensures BindingsAt(after, b, g) == BindingsAt(db, b, g)
  {
    NewSourceLater(db.sources, x.sourceId, after.sources[x.sourceId], b, g);
  }

  lemma RegisterKeepsOther(
    db: Db, op: string, x: SourceBinding, after: Db, revision: Int64, b: string, id: string)
    requires Coordinators(db) && RegisterEffect(db, op, x, after, revision)
    requires (b, id) in db.attempts && AttemptInv(db, b, id) && b != x.beneficiaryId
    ensures AttemptInv(after, b, id)
  {
    RegisterBindings(db, op, x, after, revision, b, db.attempts[(b, id)].generation);
    AttemptStable(db, after, b, id);
  }

  lemma RegisterKeepsOwn(
    db: Db, op: string, x: SourceBinding, after: Db, revision: Int64, id: string)
    requires LogInv(db.store) && Coordinators(db) && RegisterEffect(db, op, x, after, revision)
    requires (x.beneficiaryId, id) in db.attempts && AttemptInv(db, x.beneficiaryId, id)
    requires db.attempts[(x.beneficiaryId, id)].status != Pending
    ensures AttemptInv(after, x.beneficiaryId, id)
  {
    var b := x.beneficiaryId;
    assert Numbered(db.store, b);
    RegisterBindings(db, op, x, after, revision, b, db.attempts[(b, id)].generation);
    AttemptStable(db, after, b, id);
  }

  lemma RegisterSupersedes(
    db: Db, op: string, x: SourceBinding, after: Db, revision: Int64, id: string)
    requires LogInv(db.store) && Coordinators(db) && RegisterEffect(db, op, x, after, revision)
    requires (x.beneficiaryId, id) in db.attempts && AttemptInv(db, x.beneficiaryId, id)
    requires db.attempts[(x.beneficiaryId, id)].status == Pending
    ensures AttemptInv(after, x.beneficiaryId, id)
  {
    RegisterBindings(db, op, x, after, revision, x.beneficiaryId,
                     db.attempts[(x.beneficiaryId, id)].generation);
  }

  lemma RegisterKeepsAttempts(db: Db, op: string, x: SourceBinding, after: Db, revision: Int64)
    requires LogInv(db.store) && Coordinators(db) && Attempts(db)
    requires RegisterEffect(db, op, x, after, revision)
    ensures Attempts(after)
  {
    forall b, id | (b, id) in after.attempts ensures AttemptInv(after, b, id) {
      assert AttemptInv(db, b, id);
      if b != x.beneficiaryId {
        RegisterKeepsOther(db, op, x, after, revision, b, id);
      } else if db.attempts[(b, id)].status == Pending {
        RegisterSupersedes(db, op, x, after, revision, id);
      } else {
        RegisterKeepsOwn(db, op, x, after, revision, id);
      }
    }
  }

  lemma RegisterKeepsSource(
    db: Db, op: string, x: SourceBinding, after: Db, revision: Int64, s: string)
    requires Coordinators(db) && Sources(db) && RegisterEffect(db, op, x, after, revision)
    requires s in after.sources
    ensures SourceInv(after, s)
  {
    assert CoordinatorInv(db, x.beneficiaryId);
    if s != x.sourceId {
      assert SourceInv(db, s);
    }
  }

  lemma RegisterKeepsUnique(db: Db, op: string, x: SourceBinding, after: Db, revision: Int64)
    requires OneRegistrationEach(db.sources) && RegisterEffect(db, op, x, after, revision)
    ensures OneRegistrationEach(after.sources)
  {
    forall b, o, s, t | Registers(after.sources, b, o, s) && Registers(after.sources, b, o, t)
      ensures s == t
    {
      assert s != x.sourceId ==> Registers(db.sources, b, o, s);
      assert t != x.sourceId ==> Registers(db.sources, b, o, t);
    }
  }

  lemma RegisterKeepsGenerations(
    db: Db, op: string, x: SourceBinding, after: Db, revision: Int64, b: string)
    requires Coordinators(db) && Generations(db) && RegisterEffect(db, op, x, after, revision)
    ensures GenerationsInv(after, b)
  {
    forall g: Int64 | 1 <= g <= CoordinatorAt(after, b).generation
      ensures HasGeneration(after.sources, b, g)
    {
      if b == x.beneficiaryId && g == CoordinatorAt(after, b).generation {
        assert SourceAt(after.sources, b, g, x.sourceId);
      } else {
        assert GenerationsInv(db, b) && HasGeneration(db.sources, b, g);
        var s :| SourceAt(db.sources, b, g, s);
        assert SourceAt(after.sources, b, g, s);
      }
    }
  }

  lemma RegisterKeepsRevisions(
    db: Db, op: string, x: SourceBinding, after: Db, revision: Int64, b: string, r: Int64)
    requires Revisions(db) && RegisterEffect(db, op, x, after, revision) && (b, r) in after.store.revisions
    ensures RevisionInv(after, b, r)
  {
    if (b, r) in db.store.revisions {
      assert RevisionInv(db, b, r);
      var o := db.store.revisions[(b, r)].operationId;
      if s :| s in db.sources && SourceOf(db.sources[s], b) && o == RegistrationOp(db.sources[s].operationId) {
        assert s in after.sources && after.sources[s] == db.sources[s];
      } else {
        var id :| (b, id) in db.attempts && o == CollectionOp(id)
                  && db.attempts[(b, id)].status == Completed && db.attempts[(b, id)].revision == Some(r);
        assert after.attempts[(b, id)] == db.attempts[(b, id)];
      }
    } else {
      assert x.sourceId in after.sources && SourceOf(after.sources[x.sourceId], b);
    }
  }

  lemma RegisterKeepsCoordinators(db: Db, op: string, x: SourceBinding, after: Db, revision: Int64)
    requires Coordinators(db) && RegisterEffect(db, op, x, after, revision)
    ensures Coordinators(after)
  {
    forall b ensures CoordinatorInv(after, b) {
      assert CoordinatorInv(db, b);
    }
  }

  lemma RegisterKeepsInv(db: Db, op: string, x: SourceBinding, after: Db, revision: Int64)
    requires Inv(db) && RegisterEffect(db, op, x, after, revision)
    ensures Inv(after) && Extends(db.store, after.store)
  {
    RegisterKeepsUnique(db, op, x, after, revision);
    forall s | s in after.sources ensures SourceInv(after, s) {
      RegisterKeepsSource(db, op, x, after, revision, s);
    }
    RegisterKeepsCoordinators(db, op, x, after, revision);
    forall b ensures GenerationsInv(after, b) {
      RegisterKeepsGenerations(db, op, x, after, revision, b);
    }
    RegisterKeepsAttempts(db, op, x, after, revision);
    forall b, r: Int64 | (b, r) in after.store.revisions ensures RevisionInv(after, b, r) {
      RegisterKeepsRevisions(db, op, x, after, revision, b, r);
    }
  }

  // ---------- stored attempts are never corrupt ----------

  lemma BindingsShape(db: Db, b: string, g: Int64)
    requires Sources(db)
    ensures var xs := BindingsAt(db, b, g);
            && Ascending(BindingKey, xs)
            && (forall x :: x in xs ==> ValidateBinding(x).Ok? && x.beneficiaryId == b)
            && SourceIds(xs) == SourceKeysUpTo(db.sources, b, g)
            && |xs| == |SourceKeysUpTo(db.sources, b, g)|
  {
    hide StrLt, ValidateBinding;
    var keys := SourceKeysUpTo(db.sources, b, g);
    var ids, xs := SortedKeys(keys), BindingsAt(db, b, g);
    forall i | 0 <= i < |ids|
      ensures xs[i].sourceId == ids[i] && ValidateBinding(xs[i]).Ok? && xs[i].beneficiaryId == b
    {
      assert ids[i] in keys && SourceInv(db, ids[i]);
    }
    forall i, j | 0 <= i < j < |xs| ensures StrLt(BindingKey(xs[i]), BindingKey(xs[j])) {
      assert StrLt(Self(ids[i]), Self(ids[j]));
    }
    forall s ensures s in SourceIds(xs) <==> s in keys {
      if s in keys {
        assert s in ids;
        var i :| 0 <= i < |ids| && ids[i] == s;
        assert xs[i] in xs;
      }
    }
  }

  /** The ticket stored for an attempt, as it reads back. */
  ghost function StoredTicket(db: Db, b: string, id: string): CollectionTicket
    requires (b, id) in db.attempts
  {
    var a := db.attempts[(b, id)];
    CollectionTicket(b, id, a.epoch, a.generation, a.expected, BindingsAt(db, b, a.generation), a.status, a.revision)
  }

  ghost function StoredReceipt(a: AttemptRow): Option<Completion> {
    if a.status == Completed && a.evidence.Some? && a.result.Some? && a.revision.Some?
    then Some(Completion(a.evidence.value, a.result.value, a.revision.value)) else None
  }

  lemma StoredTicketReads(db: Db, b: string, id: string)
    requires Generations(db) && Sources(db) && (b, id) in db.attempts && AttemptInv(db, b, id)
    ensures TicketOf(b, id, db.attempts[(b, id)]) == Ok(StoredTicket(db, b, id))
    ensures AuthoritativeBindings(db.sources, StoredTicket(db, b, id))
  {
    var g := db.attempts[(b, id)].generation;
    BindingsShape(db, b, g);
    BindingsNonempty(db, b, g);
    BindingsRoundTrip(BindingsAt(db, b, g), b);
  }

  lemma StoredReceiptReads(db: Db, b: string, id: string)
    requires (b, id) in db.attempts && AttemptInv(db, b, id)
    requires AuthoritativeBindings(db.sources, StoredTicket(db, b, id))
    ensures ValidateStoredAttempt(db.sources, StoredTicket(db, b, id), db.attempts[(b, id)]) ==
            Ok(StoredReceipt(db.attempts[(b, id)]))
  {
    var a := db.attempts[(b, id)];
    if a.status == Completed {
      var obs :| CompletedBy(db, b, id, a, obs);
      StoredResultValidates(b, BindingsAt(db, b, a.generation), obs, a.evidence.value);
      assert StoredCompletion(a) == Ok(StoredReceipt(a));
    }
  }

  /** No stored attempt is ever reported corrupt: its bindings are those of the sources registered up
      to its generation, and its stored result reads back and canonicalises to itself. */
  lemma StoredAttemptValid(db: Db, b: string, id: string)
    requires Generations(db) && Sources(db) && Attempts(db) && (b, id) in db.attempts
    ensures TicketOf(b, id, db.attempts[(b, id)]) == Ok(StoredTicket(db, b, id))
    ensures ValidateStoredAttempt(db.sources, StoredTicket(db, b, id), db.attempts[(b, id)]) ==
            Ok(StoredReceipt(db.attempts[(b, id)]))
  {
    assert AttemptInv(db, b, id);
    StoredTicketReads(db, b, id);
    StoredReceiptReads(db, b, id);
  }

  lemma BindingsNonempty(db: Db, b: string, g: Int64)
    requires Generations(db) && Sources(db) && 1 <= g <= CoordinatorAt(db, b).generation
    ensures exists s :: s in SourceKeysUpTo(db.sources, b, g) && db.sources[s].generation == g
    ensures BindingsAt(db, b, g) != []
  {
    assert GenerationsInv(db, b) && HasGeneration(db.sources, b, g);
    var s :| SourceAt(db.sources, b, g, s);
    assert s in SourceKeysUpTo(db.sources, b, g);
    BindingsShape(db, b, g);
  }

  // ---------- beginning ----------

  ghost predicate BeginEffect(db: Db, b: string, id: string, after: Db, ticket: CollectionTicket) {
    && !Blank(b) && !Blank(id)
    && b in db.coordinators && (b, id) !in db.attempts
    && db.coordinators[b].epoch + 1 <= I64_MAX
    && after.store == db.store && after.sources == db.sources
    && after.coordinators ==
         db.coordinators[b := db.coordinators[b].(epoch := db.coordinators[b].epoch + 1, currentAttempt := Some(id))]
    && after.attempts == SupersedeOne(db.attempts, b, db.coordinators[b].currentAttempt)[(b, id) :=
         AttemptRow(db.coordinators[b].epoch + 1, db.coordinators[b].generation, HeadOf(db.store, b),
                    BindingsJson(BindingsAt(db, b, db.coordinators[b].generation)), Pending, None, None, None)]
    && ticket == StoredTicket(after, b, id)
  }

  lemma AllSourcesCurrent(db: Db, b: string)
    requires Sources(db)
    ensures SourceKeysUpTo(db.sources, b, CoordinatorAt(db, b).generation) == SourceKeys(db.sources, b)
  {
  }

  lemma BegunHasEffect(db: Db, b: string, id: string, epoch: Int64)
    requires Sources(db) && b in db.coordinators && (b, id) !in db.attempts
    requires !Blank(b) && !Blank(id)
    requires epoch == db.coordinators[b].epoch + 1
    ensures var (after, ticket) := Begun(db, b, id, epoch, HeadOf(db.store, b));
            BeginEffect(db, b, id, after, ticket)
  {
    hide CanonicalCollection;
    AllSourcesCurrent(db, b);
  }

  lemma BeginReduces(db: Db, b: string, id: string)
    requires LogInv(db.store) && Coordinators(db)
    requires (b, id) !in db.attempts && BeginCollection(db, b, id).Ok?
    ensures !Blank(b) && !Blank(id) && b in db.coordinators && db.coordinators[b].epoch + 1 <= I64_MAX
    ensures BeginCollection(db, b, id).value ==
            Begun(db, b, id, db.coordinators[b].epoch + 1, HeadOf(db.store, b))
  {
    CurrentIsHead(db, b);
  }

  lemma BeginCases(db: Db, b: string, id: string)
    requires Inv(db) && BeginCollection(db, b, id).Ok?
    ensures var (after, ticket) := BeginCollection(db, b, id).value;
            if (b, id) in db.attempts then after == db && ticket == StoredTicket(db, b, id)
            else BeginEffect(db, b, id, after, ticket)
  {
    if (b, id) in db.attempts {
      StoredAttemptValid(db, b, id);
    } else {
      BeginReduces(db, b, id);
      BegunHasEffect(db, b, id, db.coordinators[b].epoch + 1);
    }
  }

  lemma BeginKeepsAttempt(db: Db, b: string, id: string, after: Db, t: CollectionTicket, c: string, k: string)
    requires LogInv(db.store) && Coordinators(db) && Attempts(db) && BeginEffect(db, b, id, after, t)
    requires (c, k) in after.attempts
    ensures AttemptInv(after, c, k)
  {
    hide CanonicalCollection;
    assert CoordinatorInv(db, b) && Numbered(db.store, b);
    if (c, k) == (b, id) {
    } else {
      assert AttemptInv(db, c, k);
      if db.attempts[(c, k)].status == Pending && c == b {
      } else {
        AttemptStable(db, after, c, k);
      }
    }
  }

  lemma BeginKeepsRevisions(db: Db, b: string, id: string, after: Db, t: CollectionTicket)
    requires Revisions(db) && BeginEffect(db, b, id, after, t)
    ensures Revisions(after)
  {
    forall c, r: Int64 | (c, r) in after.store.revisions ensures RevisionInv(after, c, r) {
      assert RevisionInv(db, c, r);
      var o := db.store.revisions[(c, r)].operationId;
      if k :| (c, k) in db.attempts && o == CollectionOp(k)
              && db.attempts[(c, k)].status == Completed && db.attempts[(c, k)].revision == Some(r) {
        assert after.attempts[(c, k)] == db.attempts[(c, k)];
      }
    }
  }

  lemma BeginKeepsRest(db: Db, b: string, id: string, after: Db, t: CollectionTicket)
    requires Coordinators(db) && Generations(db) && Sources(db) && BeginEffect(db, b, id, after, t)
    ensures Coordinators(after) && Generations(after) && Sources(after)
  {
    forall c ensures CoordinatorInv(after, c) && GenerationsInv(after, c) {
      assert CoordinatorInv(db, c) && GenerationsInv(db, c);
    }
    forall s | s in after.sources ensures SourceInv(after, s) {
      assert SourceInv(db, s);
    }
  }

  lemma BeginKeepsInv(db: Db, b: string, id: string, after: Db, t: CollectionTicket)
    requires Inv(db) && BeginEffect(db, b, id, after, t)
    ensures Inv(after)
  {
    forall c, k | (c, k) in after.attempts ensures AttemptInv(after, c, k) {
      BeginKeepsAttempt(db, b, id, after, t, c, k);
    }
    BeginKeepsRevisions(db, b, id, after, t);
    BeginKeepsRest(db, b, id, after, t);
  }

  // ---------- finishing ----------

  ghost predicate FinishEffect(
    db: Db, t: CollectionTicket, evidence: string, obs: seq<Observation>, after: Db, revision: Int64)
  {
    var b, key := t.beneficiaryId, (t.beneficiaryId, t.attemptId);
    && b in db.coordinators && key in db.attempts
    && db.attempts[key].status == Pending && SameTicket(StoredTicket(db, b, t.attemptId), t)
    && !Blank(evidence)
    && var collected := CanonicalCollection(b, BindingsAt(db, b, db.attempts[key].generation), obs, evidence);
    && collected.Ok?
    && CanonicalOf(b, collected.value.1).Ok?
    && LogInv(after.store) && Extends(db.store, after.store)
    && HeadOf(db.store, b).Some? && revision == HeadOf(db.store, b).value + 1
    && after.store.heads == db.store.heads[b := Some(revision)]
    && after.store.revisions.Keys == db.store.revisions.Keys + {(b, revision)}
    && after.store.revisions[(b, revision)].operationId == CollectionOp(t.attemptId)
    && after.store.revisions[(b, revision)].evidenceReference == evidence
    && Records(after.store, b, revision, CanonicalOf(b, collected.value.1).value)
    && after.coordinators == db.coordinators[b := db.coordinators[b].(currentAttempt := None)]
    && after.sources == db.sources
    && after.attempts == db.attempts[key := db.attempts[key].(
         status := Completed, evidence := Some(evidence), result := Some(collected.value.0), revision := Some(revision))]
  }

  /** The canonical projection a batch stands for. */
  ghost function CombinedProjection(b: string, obs: seq<Observation>): CanonicalProjection
    requires Normalise(b, AllFacts(obs)).Ok?
  {
    match CombinedReason(obs)
    case Some(reason) => CanonicalProjection("unavailable", Some(reason), [])
    case None => CanonicalProjection("complete", None, Normalise(b, AllFacts(obs)).value)
  }

  /** Publishing never rejects what a collection combined, and stores exactly that. */
  lemma CollectionPublishable(
    b: string, bindings: seq<SourceBinding>, obs: seq<Observation>, evidence: string)
    requires !Blank(b) && CanonicalCollection(b, bindings, obs, evidence).Ok?
    ensures Normalise(b, AllFacts(obs)).Ok?
    ensures CanonicalOf(b, CanonicalCollection(b, bindings, obs, evidence).value.1) ==
            Ok(CombinedProjection(b, obs))
  {
    CollectionCombines(b, bindings, obs, evidence);
  }

  lemma FinishReduces(db: Db, t: CollectionTicket, evidence: string, obs: seq<Observation>)
    requires Generations(db) && Sources(db) && Attempts(db)
    requires !Blank(t.beneficiaryId) && !Blank(t.attemptId) && t.beneficiaryId in db.coordinators
    requires (t.beneficiaryId, t.attemptId) in db.attempts
    ensures FinishCollection(db, t, evidence, obs) ==
            FinishStored(db, t, StoredTicket(db, t.beneficiaryId, t.attemptId),
                         StoredReceipt(db.attempts[(t.beneficiaryId, t.attemptId)]), evidence, obs)
  {
    StoredAttemptValid(db, t.beneficiaryId, t.attemptId);
  }

  lemma FinishPendingReduces(db: Db, t: CollectionTicket, evidence: string, obs: seq<Observation>)
    requires LogInv(db.store) && Coordinators(db)
    requires t.beneficiaryId in db.coordinators && (t.beneficiaryId, t.attemptId) in db.attempts
    requires AttemptInv(db, t.beneficiaryId, t.attemptId)
    requires db.attempts[(t.beneficiaryId, t.attemptId)].status == Pending
    requires SameTicket(StoredTicket(db, t.beneficiaryId, t.attemptId), t)
    ensures t.expected == HeadOf(db.store, t.beneficiaryId)
    ensures FinishPending(db, t, evidence, obs) ==
            if Blank(evidence) then Err(InvalidIdentifier)
            else
              match CanonicalCollection(t.beneficiaryId, t.bindings, obs, evidence)
              case Err(e) => Err(e)
              case Ok((result, projection)) =>
                match Publish(db.store, CollectionRequest(t, evidence, projection))
                case Err(e) => Err(Store(e))
                case Ok((store, receipt)) =>
                  Ok((Finished(db, t, evidence, result, store, receipt.revision),
                      ReconciliationReceipt(t.attemptId, receipt.revision, receipt.outcome)))
  {
    CurrentIsHead(db, t.beneficiaryId);
  }

  lemma FinishPublishes(
    db: Db, t: CollectionTicket, evidence: string, obs: seq<Observation>, result: Json.Value, projection: Projection)
    requires LogInv(db.store) && Coordinators(db) && Revisions(db)
    requires t.beneficiaryId in db.coordinators && (t.beneficiaryId, t.attemptId) in db.attempts
    requires AttemptInv(db, t.beneficiaryId, t.attemptId)
    requires db.attempts[(t.beneficiaryId, t.attemptId)].status == Pending
    requires SameTicket(StoredTicket(db, t.beneficiaryId, t.attemptId), t)
    requires !Blank(evidence)
    requires CanonicalCollection(t.beneficiaryId, t.bindings, obs, evidence) == Ok((result, projection))
    ensures var q := CollectionRequest(t, evidence, projection);
            var head := HeadOf(db.store, t.beneficiaryId);
            && GoodRequest(q) && Unpublished(db.store, t.beneficiaryId, q.operationId)
            && head.Some?
            && (Publish(db.store, q).Ok? <==> head.value < I64_MAX)
            && (Publish(db.store, q).Ok? ==>
                  Publish(db.store, q).value.1 == PublicationReceipt(head.value + 1, Applied))
            && (Publish(db.store, q).Err? ==> Publish(db.store, q).error == RevisionOverflow)
  {
    var q := CollectionRequest(t, evidence, projection);
    CollectionPublishable(t.beneficiaryId, t.bindings, obs, evidence);
    OperationNames(t.attemptId, t.attemptId);
    UnfinishedUnpublished(db, t.beneficiaryId, t.attemptId);
    CurrentIsHead(db, t.beneficiaryId);
    PublishFresh(db.store, q);
  }

  lemma FinishedHasEffect(
    db: Db, t: CollectionTicket, evidence: string, obs: seq<Observation>, result: Json.Value,
    projection: Projection, store: Tables, revision: Int64)
    requires LogInv(db.store)
    requires t.beneficiaryId in db.coordinators && (t.beneficiaryId, t.attemptId) in db.attempts
    requires AttemptInv(db, t.beneficiaryId, t.attemptId)
    requires db.attempts[(t.beneficiaryId, t.attemptId)].status == Pending
    requires SameTicket(StoredTicket(db, t.beneficiaryId, t.attemptId), t)
    requires !Blank(evidence)
    requires CanonicalCollection(t.beneficiaryId, t.bindings, obs, evidence) == Ok((result, projection))
    requires AppendStep(db.store, CollectionRequest(t, evidence, projection), revision, store)
    ensures FinishEffect(db, t, evidence, obs, Finished(db, t, evidence, result, store, revision), revision)
  {
    var q := CollectionRequest(t, evidence, projection);
    AppendedRow(db.store, q, revision, store);
    AppendedKeepsLog(db.store, q, revision, store);
    AppendedExtends(db.store, q, revision, store);
  }

  lemma FinishPendingCases(db: Db, t: CollectionTicket, evidence: string, obs: seq<Observation>)
    requires Inv(db)
    requires t.beneficiaryId in db.coordinators && (t.beneficiaryId, t.attemptId) in db.attempts
    requires db.attempts[(t.beneficiaryId, t.attemptId)].status == Pending
    requires SameTicket(StoredTicket(db, t.beneficiaryId, t.attemptId), t)
    requires FinishPending(db, t, evidence, obs).Ok?
    ensures var (after, receipt) := FinishPending(db, t, evidence, obs).value;
            && receipt.outcome == Applied && receipt.attemptId == t.attemptId
            && FinishEffect(db, t, evidence, obs, after, receipt.revision)
  {
    assert AttemptInv(db, t.beneficiaryId, t.attemptId);
    FinishPendingReduces(db, t, evidence, obs);
    var (result, projection) := CanonicalCollection(t.beneficiaryId, t.bindings, obs, evidence).value;
    FinishPublishes(db, t, evidence, obs, result, projection);
    var q := CollectionRequest(t, evidence, projection);
    PublishCases(db.store, q);
    var (store, receipt) := Publish(db.store, q).value;
    FinishedHasEffect(db, t, evidence, obs, result, projection, store, receipt.revision);
  }

  lemma FinishNeedsAttempt(db: Db, t: CollectionTicket, evidence: string, obs: seq<Observation>)
    requires FinishCollection(db, t, evidence, obs).Ok?
    ensures !Blank(t.beneficiaryId) && !Blank(t.attemptId) && t.beneficiaryId in db.coordinators
    ensures (t.beneficiaryId, t.attemptId) in db.attempts
  {
  }

  ghost predicate FinishReplays(
    db: Db, t: CollectionTicket, evidence: string, obs: seq<Observation>, receipt: ReconciliationReceipt)
  {
    var key := (t.beneficiaryId, t.attemptId);
    && key in db.attempts && db.attempts[key].status == Completed
    && SameTicket(StoredTicket(db, t.beneficiaryId, t.attemptId), t)
    && db.attempts[key].evidence == Some(evidence)
    && db.attempts[key].revision.Some? && db.attempts[key].result.Some?
    && CanonicalCollection(t.beneficiaryId, t.bindings, obs, evidence).Ok?
    && CanonicalCollection(t.beneficiaryId, t.bindings, obs, evidence).value.0 == db.attempts[key].result.value
    && receipt == ReconciliationReceipt(t.attemptId, db.attempts[key].revision.value, AlreadyApplied)
  }

  /** A stored attempt that is not pending answers without touching anything. */
  lemma FinishSettled(db: Db, t: CollectionTicket, evidence: string, obs: seq<Observation>)
    requires t.beneficiaryId in db.coordinators && (t.beneficiaryId, t.attemptId) in db.attempts
    requires AttemptInv(db, t.beneficiaryId, t.attemptId)
    requires db.attempts[(t.beneficiaryId, t.attemptId)].status != Pending
    ensures var r := FinishStored(db, t, StoredTicket(db, t.beneficiaryId, t.attemptId),
                                  StoredReceipt(db.attempts[(t.beneficiaryId, t.attemptId)]), evidence, obs);
            && (r.Ok? ==> r.value.0 == db && FinishReplays(db, t, evidence, obs, r.value.1))
            && (forall receipt :: FinishReplays(db, t, evidence, obs, receipt) ==> r == Ok((db, receipt)))
            && (r.Err? ==> r.error == CollectionConflict || r.error == AttemptSuperseded
                           || r.error == ReconciliationError.OperationConflict)
  {
  }

  lemma FinishUnsettled(db: Db, t: CollectionTicket, evidence: string, obs: seq<Observation>)
    requires t.beneficiaryId in db.coordinators && (t.beneficiaryId, t.attemptId) in db.attempts
    requires db.attempts[(t.beneficiaryId, t.attemptId)].status == Pending
    ensures FinishStored(db, t, StoredTicket(db, t.beneficiaryId, t.attemptId),
                         StoredReceipt(db.attempts[(t.beneficiaryId, t.attemptId)]), evidence, obs) ==
            if SameTicket(StoredTicket(db, t.beneficiaryId, t.attemptId), t)
            then FinishPending(db, t, evidence, obs) else Err(CollectionConflict)
  {
  }

  lemma FinishCases(db: Db, t: CollectionTicket, evidence: string, obs: seq<Observation>)
    requires Inv(db) && FinishCollection(db, t, evidence, obs).Ok?
    ensures var (after, receipt) := FinishCollection(db, t, evidence, obs).value;
            match receipt.outcome
            case AlreadyApplied => after == db && FinishReplays(db, t, evidence, obs, receipt)
            case Applied =>
              && receipt.attemptId == t.attemptId
              && FinishEffect(db, t, evidence, obs, after, receipt.revision)
  {
    FinishNeedsAttempt(db, t, evidence, obs);
    FinishReduces(db, t, evidence, obs);
    if db.attempts[(t.beneficiaryId, t.attemptId)].status == Pending {
      FinishUnsettled(db, t, evidence, obs);
      FinishPendingCases(db, t, evidence, obs);
    } else {
      assert AttemptInv(db, t.beneficiaryId, t.attemptId);
      FinishSettled(db, t, evidence, obs);
    }
  }

  lemma FinishKeepsOwnAttempt(
    db: Db, t: CollectionTicket, evidence: string, obs: seq<Observation>, after: Db, revision: Int64)
    requires LogInv(db.store) && Attempts(db) && FinishEffect(db, t, evidence, obs, after, revision)
    ensures AttemptInv(after, t.beneficiaryId, t.attemptId)
  {
    hide CanonicalCollection;
    var b, id := t.beneficiaryId, t.attemptId;
    assert AttemptInv(db, b, id) && Numbered(db.store, b);
    assert CompletedBy(after, b, id, after.attempts[(b, id)], obs);
  }

  lemma FinishKeepsOtherAttempt(
    db: Db, t: CollectionTicket, evidence: string, obs: seq<Observation>, after: Db, revision: Int64,
    b: string, id: string)
    requires LogInv(db.store) && Attempts(db) && FinishEffect(db, t, evidence, obs, after, revision)
    requires (b, id) in db.attempts && (b, id) != (t.beneficiaryId, t.attemptId)
    ensures AttemptInv(after, b, id)
  {
    hide CanonicalCollection;
    assert AttemptInv(db, b, id) && Numbered(db.store, b);
    assert AttemptInv(db, t.beneficiaryId, t.attemptId);
    AttemptStable(db, after, b, id);
  }

  lemma FinishKeepsAttempt(
    db: Db, t: CollectionTicket, evidence: string, obs: seq<Observation>, after: Db, revision: Int64,
    b: string, id: string)
    requires LogInv(db.store) && Attempts(db) && FinishEffect(db, t, evidence, obs, after, revision)
    requires (b, id) in after.attempts
    ensures AttemptInv(after, b, id)
  {
    hide AttemptInv, CanonicalCollection, LogInv, Attempts;
    if (b, id) == (t.beneficiaryId, t.attemptId) {
      FinishKeepsOwnAttempt(db, t, evidence, obs, after, revision);
    } else {
      FinishKeepsOtherAttempt(db, t, evidence, obs, after, revision, b, id);
    }
  }

  lemma FinishKeepsRevisions(
    db: Db, t: CollectionTicket, evidence: string, obs: seq<Observation>, after: Db, revision: Int64)
    requires Revisions(db) && FinishEffect(db, t, evidence, obs, after, revision)
    ensures Revisions(after)
  {
    hide CompletedBy, CollectionOp, LogInv, CanonicalCollection, CanonicalOf, Records, SameTicket;
    forall b, r: Int64 | (b, r) in after.store.revisions ensures RevisionInv(after, b, r) {
      if (b, r) in db.store.revisions {
        assert RevisionInv(db, b, r);
        var o := db.store.revisions[(b, r)].operationId;
        if k :| (b, k) in db.attempts && o == CollectionOp(k)
                && db.attempts[(b, k)].status == Completed && db.attempts[(b, k)].revision == Some(r) {
          assert after.attempts[(b, k)] == db.attempts[(b, k)];
        }
      } else {
        assert (b, t.attemptId) in after.attempts;
      }
    }
  }

  lemma FinishKeepsCoordinators(
    db: Db, t: CollectionTicket, evidence: string, obs: seq<Observation>, after: Db, revision: Int64)
    requires Coordinators(db) && FinishEffect(db, t, evidence, obs, after, revision)
    requires AttemptInv(db, t.beneficiaryId, t.attemptId)
    ensures Coordinators(after)
  {
    hide LogInv, Extends, CanonicalCollection, CanonicalOf, Records;
    forall c ensures CoordinatorInv(after, c) {
      assert CoordinatorInv(db, c);
    }
  }

  lemma FinishKeepsSources(
    db: Db, t: CollectionTicket, evidence: string, obs: seq<Observation>, after: Db, revision: Int64)
    requires Generations(db) && Sources(db) && FinishEffect(db, t, evidence, obs, after, revision)
    ensures Generations(after) && Sources(after)
  {
    hide CanonicalCollection, LogInv, CanonicalOf, Records, CollectionOp, ValidateBinding;
    forall c ensures GenerationsInv(after, c) {
      assert GenerationsInv(db, c);
    }
    forall s | s in after.sources ensures SourceInv(after, s) {
      assert SourceInv(db, s);
    }
  }

  lemma FinishKeepsInv(
    db: Db, t: CollectionTicket, evidence: string, obs: seq<Observation>, after: Db, revision: Int64)
    requires Inv(db) && FinishEffect(db, t, evidence, obs, after, revision)
    ensures Inv(after)
  {
    forall b, id | (b, id) in after.attempts ensures AttemptInv(after, b, id) {
      FinishKeepsAttempt(db, t, evidence, obs, after, revision, b, id);
    }
    FinishKeepsRevisions(db, t, evidence, obs, after, revision);
    assert AttemptInv(db, t.beneficiaryId, t.attemptId);
    FinishKeepsCoordinators(db, t, evidence, obs, after, revision);
    FinishKeepsSources(db, t, evidence, obs, after, revision);
  }

  // ---------- runs ----------

  /** Anything a worker may ask for, with whatever ticket it still holds. */
  datatype Step =
    | Register(operationId: string, binding: SourceBinding)
    | Begin(beneficiaryId: string, attemptId: string)
    | Finish(ticket: CollectionTicket, evidence: string, observations: seq<Observation>)

  /** One transaction: committed on success, rolled back on error. */
  ghost function Apply(db: Db, step: Step): Db {
    match step
    case Register(op, x) =>
      var r := RegisterSource(db, op, x);
      if r.Ok? then r.value.0 else db
    case Begin(b, id) =>
      var r := BeginCollection(db, b, id);
      if r.Ok? then r.value.0 else db
    case Finish(t, evidence, obs) =>
      var r := FinishCollection(db, t, evidence, obs);
      if r.Ok? then r.value.0 else db
  }

  ghost function Run(db: Db, steps: seq<Step>): Db {
    if steps == [] then db else Apply(Run(db, steps[..|steps| - 1]), steps[|steps| - 1])
  }

  /** What no later step can change. */
  ghost predicate Later(db: Db, after: Db) {
    && Extends(db.store, after.store)
    && (forall s :: s in db.sources ==> s in after.sources && after.sources[s] == db.sources[s])
    && (forall k :: k in db.attempts ==> k in after.attempts && LaterAttempt(db.attempts[k], after.attempts[k]))
  }

  /** A finished or superseded attempt is final; a pending one keeps its ticket. */
  ghost predicate LaterAttempt(a: AttemptRow, c: AttemptRow) {
    && a.epoch == c.epoch && a.generation == c.generation
    && a.expected == c.expected && a.bindings == c.bindings
    && (a.status != Pending ==> a == c)
  }

  lemma LaterReflexive(db: Db)
    ensures Later(db, db)
  {
  }

  lemma LaterTransitive(db: Db, mid: Db, after: Db)
    requires Later(db, mid) && Later(mid, after)
    ensures Later(db, after)
  {
  }

  lemma RegisterLater(db: Db, op: string, x: SourceBinding, after: Db, revision: Int64)
    requires RegisterEffect(db, op, x, after, revision)
    ensures Later(db, after)
  {
    hide RegistrationOp;
  }

  lemma BeginLater(db: Db, b: string, id: string, after: Db, t: CollectionTicket)
    requires BeginEffect(db, b, id, after, t)
    ensures Later(db, after)
  {
    forall k | k in db.attempts
      ensures k in after.attempts && LaterAttempt(db.attempts[k], after.attempts[k])
    {
      assert after.attempts[k] == db.attempts[k] || after.attempts[k] == Supersede(db.attempts[k]);
    }
  }

  lemma FinishLater(
    db: Db, t: CollectionTicket, evidence: string, obs: seq<Observation>, after: Db, revision: Int64)
    requires FinishEffect(db, t, evidence, obs, after, revision)
    ensures Later(db, after)
  {
    forall k | k in db.attempts
      ensures k in after.attempts && LaterAttempt(db.attempts[k], after.attempts[k])
    {
      assert k == (t.beneficiaryId, t.attemptId) || after.attempts[k] == db.attempts[k];
    }
  }

  lemma ApplyKeepsInv(db: Db, step: Step)
    requires Inv(db)
    ensures Inv(Apply(db, step)) && Later(db, Apply(db, step))
  {
    match step
    case Register(op, x) => RegisterApplied(db, op, x);
    case Begin(b, id) => BeginApplied(db, b, id);
    case Finish(t, evidence, obs) => FinishApplied(db, t, evidence, obs);
  }

  lemma RegisterApplied(db: Db, op: string, x: SourceBinding)
    requires Inv(db)
    ensures Inv(Apply(db, Register(op, x))) && Later(db, Apply(db, Register(op, x)))
  {
    hide Inv, Later, RegisterStep, RegisterEffect, RegisterSource, Registers;
    LaterReflexive(db);
    if RegisterSource(db, op, x).Ok? {
      RegisterCases(db, op, x);
      var (after, receipt) := RegisterSource(db, op, x).value;
      if receipt.outcome == Applied {
        RegisterHasEffect(db, op, x, after, receipt.projectionRevision.value);
        RegisterKeepsInv(db, op, x, after, receipt.projectionRevision.value);
        RegisterLater(db, op, x, after, receipt.projectionRevision.value);
      }
    }
  }

  lemma BegunKeepsInv(db: Db, b: string, id: string, after: Db, t: CollectionTicket)
    requires Inv(db)
    requires if (b, id) in db.attempts then after == db else BeginEffect(db, b, id, after, t)
    ensures Inv(after) && Later(db, after)
  {
    if (b, id) !in db.attempts {
      BeginKeepsInv(db, b, id, after, t);
      BeginLater(db, b, id, after, t);
    }
  }

  lemma BeginApplied(db: Db, b: string, id: string)
    requires Inv(db)
    ensures Inv(Apply(db, Begin(b, id))) && Later(db, Apply(db, Begin(b, id)))
  {
    hide Inv, Later, BeginCollection, BeginEffect;
    LaterReflexive(db);
    if BeginCollection(db, b, id).Ok? {
      BeginCases(db, b, id);
      var (after, ticket) := BeginCollection(db, b, id).value;
      BegunKeepsInv(db, b, id, after, ticket);
    }
  }

  lemma FinishApplied(db: Db, t: CollectionTicket, evidence: string, obs: seq<Observation>)
    requires Inv(db)
    ensures Inv(Apply(db, Finish(t, evidence, obs))) && Later(db, Apply(db, Finish(t, evidence, obs)))
  {
    hide Inv, Later, FinishEffect, FinishReplays, FinishCollection;
    LaterReflexive(db);
    if FinishCollection(db, t, evidence, obs).Ok? {
      FinishCases(db, t, evidence, obs);
      var (after, receipt) := FinishCollection(db, t, evidence, obs).value;
      if receipt.outcome == Applied {
        FinishKeepsInv(db, t, evidence, obs, after, receipt.revision);
        FinishLater(db, t, evidence, obs, after, receipt.revision);
      }
    }
  }

  /** Whatever any workers do, in any order and with any old tickets, the invariant holds and nothing
      recorded is lost. */
  lemma {:induction false} RunKeepsInv(db: Db, steps: seq<Step>)
    requires Inv(db)
    ensures Inv(Run(db, steps)) && Later(db, Run(db, steps))
  {
    if steps != [] {
      var init := steps[..|steps| - 1];
      RunKeepsInv(db, init);
      ApplyKeepsInv(Run(db, init), steps[|steps| - 1]);
      LaterTransitive(db, Run(db, init), Run(db, steps));
    }
  }
}
