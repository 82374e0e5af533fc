/** The coordinator as the program runs it: tables changed step by step inside a transaction. */
module Coordinator {
  import opened Outcomes
  import opened Ordering
  import opened Text
  import opened Coverage
  import opened CoverageStore
  import opened Collection
  import opened StoredForms
  import opened Reconciliation
  import opened ReconciliationRuns

  lemma SameRegistered(db: Db, x: SourceBinding, op: string, g: Int64, store: Tables, revision: Int64)
    ensures var b := x.beneficiaryId;
            var inserted := db.(coordinators := db.coordinators[b := CoordinatorAt(db, b)]);
            Registered(inserted, x, op, g, store, revision) == Registered(db, x, op, g, store, revision)
  {
  }

  /** Inserting the coordinator's default row first makes no difference to a registration. */
  lemma SameCoordinator(
    db: Db, op: string, x: SourceBinding, publication: Result<(Tables, PublicationReceipt), StoreError>)
    ensures RegisterWith(
              db.(coordinators := db.coordinators[x.beneficiaryId := CoordinatorAt(db, x.beneficiaryId)]),
              op, x, publication) == RegisterWith(db, op, x, publication)
  {
    if publication.Ok? && CoordinatorAt(db, x.beneficiaryId).generation < I64_MAX {
      SameRegistered(db, x, op, CoordinatorAt(db, x.beneficiaryId).generation + 1,
                     publication.value.0, publication.value.1.revision);
    }
  }

  class Transaction {
    const store: Store
    var coordinators: map<string, CoordinatorRow>
    var sources: map<string, SourceRow>
    var attempts: map<(string, string), AttemptRow>

    constructor ()
      ensures View() == Db(Tables(map[], map[], map[]), map[], map[], map[])
      ensures fresh(store)
    {
      store := new Store();
      coordinators, sources, attempts := map[], map[], map[];
    }

    ghost function View(): Db
      reads this, store
    {
      Db(store.View(), coordinators, sources, attempts)
    }

    /** The tables' unique keys. */
    ghost predicate Valid()
      reads this, store
    {
      && Schema(store.View())
      && (forall b, op, s, t :: Registers(sources, b, op, s) && Registers(sources, b, op, t) ==> s == t)
    }

    // ---------- queries ----------

    method SelectRegistration(b: string, op: string) returns (r: Option<string>)
      requires Valid()
      ensures r == FindRegistration(sources, b, op)
    {
      var pending := sources.Keys;
      while pending != {}
        invariant pending <= sources.Keys
        invariant forall s :: Registers(sources, b, op, s) ==> s in pending
        decreases pending
      {
        var s :| s in pending;
        if SourceOf(sources[s], b) && sources[s].operationId == op {
          assert Registers(sources, b, op, s);
          return Some(s);
        }
        pending := pending - {s};
      }
      r := None;
    }

    /** `SELECT ... ORDER BY source_id COLLATE "C"`. */
    method SelectBindings(keys: set<string>) returns (bindings: seq<SourceBinding>)
      requires keys <= sources.Keys
      ensures bindings == BindingsOf(sources, keys)
    {
      var ids := EnumerateSorted(keys);
      var rows := sources;
      bindings := seq(|ids|, i requires 0 <= i < |ids| && ids[i] in rows => rows[ids[i]].binding);
    }

    method ValidateAttempt(t: CollectionTicket, row: AttemptRow) returns (r: Parsed<Option<Completion>>)
      ensures r == ValidateStoredAttempt(sources, t, row)
    {
      var keys := SourceKeysUpTo(sources, t.beneficiaryId, t.generation);
      var authoritative := SelectBindings(keys);
      var latest := exists s :: s in keys && sources[s].generation == t.generation;
      if !latest || authoritative != t.bindings {
        return Corrupt(BindingSourceSet);
      }
      match StoredCompletion(row) {
        case Err(e) => return Err(e);
        case Ok(None) => return Ok(None);
        case Ok(Some(done)) =>
          var canonical := ValidateStoredResult(t.beneficiaryId, t.bindings, done.evidence, done.result);
          match canonical {
            case Err(e) => return Err(e);
            case Ok(result) => return Ok(Some(done.(result := result)));
          }
      }
    }

    // ---------- registering ----------

    /** On an error the caller must roll back. */
    method RegisterInTransaction(op: string, binding: SourceBinding)
      returns (r: Result<RegistrationReceipt, ReconciliationError>)
      requires Valid()
      modifies this, store
      ensures r.Ok? <==> RegisterSource(old(View()), op, binding).Ok?
      ensures r.Err? ==> r.error == RegisterSource(old(View()), op, binding).error
      ensures r.Ok? ==> (View(), r.value) == RegisterSource(old(View()), op, binding).value
    {
      var b := binding.beneficiaryId;
      if Blank(op) {
        return Err(ReconciliationError.EmptyOperationId);
      }
      if ValidateBinding(binding).Err? {
        return Err(InvalidSource);
      }
      var coordinatorExists := b in coordinators;
      var current := store.ReadRevision(b);
      if current.Err? {
        return Err(Store(current.error));
      }
      if !coordinatorExists && current.value.Some? {
        return Err(BootstrapConflict);
      }
      if !coordinatorExists {
        coordinators := coordinators[b := CoordinatorRow(0, 0, None)];
      }
      var expected := current.value;
      assert coordinators == old(coordinators)[b := CoordinatorAt(old(View()), b)];
      if coordinators[b].generation == 0 && expected.Some? {
        return Err(BootstrapConflict);
      }
      var found := SelectRegistration(b, op);
      if found.Some? {
        var row := sources[found.value];
        if row.binding != binding {
          return Err(RegistrationConflict);
        }
        if row.projectionRevision.None? {
          return Err(CorruptRegistration);
        }
        return Ok(RegistrationReceipt(row.binding.sourceId, row.generation, row.projectionRevision, AlreadyApplied));
      }
      SameCoordinator(old(View()), op, binding,
                      Publish(old(View()).store, RegistrationRequest(binding, op, expected)));
      assert View() == old(View()).(coordinators := old(coordinators)[b := CoordinatorAt(old(View()), b)]);
      r := InsertSource(op, binding, expected);
    }

    /** Insert the source, supersede pending attempts, and publish that coverage is unavailable. */
    method InsertSource(op: string, binding: SourceBinding, expected: Option<Int64>)
      returns (r: Result<RegistrationReceipt, ReconciliationError>)
      requires Valid() && binding.beneficiaryId in coordinators
      modifies this, store
      ensures r.Ok? <==> RegisterNew(old(View()), op, binding, expected).Ok?
      ensures r.Err? ==> r.error == RegisterNew(old(View()), op, binding, expected).error
      ensures r.Ok? ==> (View(), r.value) == RegisterNew(old(View()), op, binding, expected).value
    {
      hide Publish, AllocationTaken, SupersedeAll, RegistrationRequest;
      var b := binding.beneficiaryId;
      if binding.sourceId in sources || AllocationTaken(sources, binding) {
        return Err(SourceBindingConflict);
      }
      var next := CheckedAdd(coordinators[b].generation, 1);
      if next.None? {
        return Err(GenerationOverflow);
      }
      sources := sources[binding.sourceId := SourceRow(binding, op, next.value, None)];
      attempts := SupersedeAll(attempts, b);
      coordinators := coordinators[b := coordinators[b].(generation := next.value, currentAttempt := None)];
      var publication := store.PublishProjection(RegistrationRequest(binding, op, expected));
      if publication.Err? {
        return Err(Store(publication.error));
      }
      var revision := publication.value.revision;
      sources := sources[binding.sourceId := sources[binding.sourceId].(projectionRevision := Some(revision))];
      assert sources == old(sources)[binding.sourceId := SourceRow(binding, op, next.value, Some(revision))];
      r := Ok(RegistrationReceipt(binding.sourceId, next.value, Some(revision), publication.value.outcome));
    }

    // ---------- beginning ----------

    method BeginInTransaction(b: string, id: string)
      returns (r: Result<CollectionTicket, ReconciliationError>)
      modifies this
      ensures r.Ok? <==> BeginCollection(old(View()), b, id).Ok?
      ensures r.Err? ==> r.error == BeginCollection(old(View()), b, id).error
      ensures r.Ok? ==> (View(), r.value) == BeginCollection(old(View()), b, id).value
    {
      if Blank(b) {
        return Err(InvalidIdentifier);
      }
      if Blank(id) {
        return Err(EmptyAttemptId);
      }
      if b !in coordinators {
        return Err(NoSources);
      }
      if (b, id) in attempts {
        var row := attempts[(b, id)];
        var ticket := TicketOf(b, id, row);
        if ticket.Err? {
          return Err(ticket.error);
        }
        var valid := ValidateAttempt(ticket.value, row);
        if valid.Err? {
          return Err(valid.error);
        }
        return ticket;
      }
      var keys := SourceKeys(sources, b);
      if keys == {} || coordinators[b].generation == 0 {
        return Err(NoSources);
      }
      var bindings := SelectBindings(keys);
      var current := store.ReadRevision(b);
      if current.Err? {
        return Err(Store(current.error));
      }
      var epoch := CheckedAdd(coordinators[b].epoch, 1);
      if epoch.None? {
        return Err(EpochOverflow);
      }
      if EpochTaken(attempts, b, epoch.value) {
        return Err(DatabaseFailure);
      }
      var c := coordinators[b];
      attempts := SupersedeOne(attempts, b, c.currentAttempt);
      attempts := attempts[(b, id) := AttemptRow(epoch.value, c.generation, current.value,
                                                 BindingsJson(bindings), Pending, None, None, None)];
      coordinators := coordinators[b := c.(epoch := epoch.value, currentAttempt := Some(id))];
      r := Ok(CollectionTicket(b, id, epoch.value, c.generation, current.value, bindings, Pending, None));
    }

    // ---------- finishing ----------

    method FinishInTransaction(t: CollectionTicket, evidence: string, obs: seq<Observation>)
      returns (r: Result<ReconciliationReceipt, ReconciliationError>)
      requires Valid()
      modifies this, store
      ensures r.Ok? <==> FinishCollection(old(View()), t, evidence, obs).Ok?
      ensures r.Err? ==> r.error == FinishCollection(old(View()), t, evidence, obs).error
      ensures r.Ok? ==> (View(), r.value) == FinishCollection(old(View()), t, evidence, obs).value
    {
      var b, key := t.beneficiaryId, (t.beneficiaryId, t.attemptId);
      if Blank(b) {
        return Err(InvalidIdentifier);
      }
      if Blank(t.attemptId) {
        return Err(EmptyAttemptId);
      }
      if b !in coordinators {
        return Err(NoSources);
      }
      if key !in attempts {
        return Err(AttemptMissing);
      }
      var stored := TicketOf(b, t.attemptId, attempts[key]);
      if stored.Err? {
        return Err(stored.error);
      }
      var completion := ValidateAttempt(stored.value, attempts[key]);
      if completion.Err? {
        return Err(completion.error);
      }
      if !SameTicket(stored.value, t) {
        return Err(CollectionConflict);
      }
      match stored.value.status {
        case Completed => r := FinishAgain(t, completion.value, evidence, obs);
        case Superseded => r := Err(AttemptSuperseded);
        case Pending => r := CompletePending(t, evidence, obs);
      }
    }

    method CompletePending(t: CollectionTicket, evidence: string, obs: seq<Observation>)
      returns (r: Result<ReconciliationReceipt, ReconciliationError>)
      requires Valid()
      requires t.beneficiaryId in coordinators && (t.beneficiaryId, t.attemptId) in attempts
      requires attempts[(t.beneficiaryId, t.attemptId)].status == Pending
      modifies this, store
      ensures r.Ok? <==> FinishPending(old(View()), t, evidence, obs).Ok?
      ensures r.Err? ==> r.error == FinishPending(old(View()), t, evidence, obs).error
      ensures r.Ok? ==> (View(), r.value) == FinishPending(old(View()), t, evidence, obs).value
    {
      var b, key := t.beneficiaryId, (t.beneficiaryId, t.attemptId);
      if Blank(evidence) {
        return Err(InvalidIdentifier);
      }
      var collected := CombineObservations(b, t.bindings, obs, evidence);
      if collected.Err? {
        return Err(collected.error);
      }
      var (result, projection) := collected.value;
      var c := coordinators[b];
      if c.currentAttempt != Some(t.attemptId) || c.generation != t.generation || c.epoch != t.epoch {
        return Err(CollectionConflict);
      }
      var actual := store.ReadRevision(b);
      if actual.Err? {
        return Err(Store(actual.error));
      }
      if actual.value != t.expected {
        return Err(Store(RevisionConflict(t.expected, actual.value)));
      }
      var publication := store.PublishProjection(CollectionRequest(t, evidence, projection));
      if publication.Err? {
        return Err(Store(publication.error));
      }
      var revision := publication.value.revision;
      attempts := attempts[key := attempts[key].(
        status := Completed, evidence := Some(evidence), result := Some(result), revision := Some(revision))];
      if coordinators[b].currentAttempt == Some(t.attemptId) {
        coordinators := coordinators[b := coordinators[b].(currentAttempt := None)];
      }
      r := Ok(ReconciliationReceipt(t.attemptId, revision, publication.value.outcome));
    }

    // ---------- one whole transaction ----------

    method Restore(
      heads: map<string, Option<Int64>>,
      revisions: map<(string, Int64), RevisionRow>,
      facts: map<(string, Int64), seq<Fact>>,
      coordinators: map<string, CoordinatorRow>,
      sources: map<string, SourceRow>,
      attempts: map<(string, string), AttemptRow>)
      modifies this, store
      ensures View() == Db(Tables(heads, revisions, facts), coordinators, sources, attempts)
    {
      store.heads, store.revisions, store.facts := heads, revisions, facts;
      this.coordinators, this.sources, this.attempts := coordinators, sources, attempts;
    }

    /** Any worker's request: commit on success, roll back on error. */
    method Execute(step: Step)
      requires Inv(View())
      modifies this, store
      ensures View() == Apply(old(View()), step)
      ensures Inv(View()) && Later(old(View()), View())
    {
      ApplyKeepsInv(View(), step);
      var heads, revisions, facts := store.heads, store.revisions, store.facts;
      var coordinators0, sources0, attempts0 := coordinators, sources, attempts;
      var failed: bool;
      match step {
        case Register(op, x) =>
          var r := RegisterInTransaction(op, x);
          failed := r.Err?;
        case Begin(b, id) =>
          var r := BeginInTransaction(b, id);
          failed := r.Err?;
        case Finish(t, evidence, obs) =>
          var r := FinishInTransaction(t, evidence, obs);
          failed := r.Err?;
      }
      if failed {
        Restore(heads, revisions, facts, coordinators0, sources0, attempts0);
      }
    }
  }
}
