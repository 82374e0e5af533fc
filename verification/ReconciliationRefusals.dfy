/** Exactly how each of the coordinator's operations ends in a reachable state: every refusal with its
    cause, in the order they are looked for. */
module ReconciliationRefusals {
  import opened Outcomes
  import opened Text
  import opened Coverage
  import opened CoverageStore
  import opened Collection
  import opened StoredForms
  import opened Reconciliation
  import opened ReconciliationRuns
  import opened ReconciliationResults
  import Json

  // ---------- registering ----------

  predicate HasBlankField(x: SourceBinding) {
    || Blank(x.beneficiaryId) || Blank(x.sourceId) || Blank(x.providerNamespace)
    || Blank(x.externalAllocationReference) || Blank(x.ownershipEvidenceReference)
  }

  /** Some source of the beneficiary was registered by this operation. */
  ghost predicate Used(db: Db, b: string, op: string, s: string) {
    s in db.sources && db.sources[s].binding.beneficiaryId == b && db.sources[s].operationId == op
  }

  ghost predicate Allocated(db: Db, x: SourceBinding, s: string) {
    && s in db.sources
    && db.sources[s].binding.providerNamespace == x.providerNamespace
    && db.sources[s].binding.externalAllocationReference == x.externalAllocationReference
  }

  /** How a registration that repeats none ends. */
  ghost predicate NewEndsAs(
    db: Db, x: SourceBinding, r: Result<(Db, RegistrationReceipt), ReconciliationError>)
  {
    var head := HeadOf(db.store, x.beneficiaryId);
    var generation := if x.beneficiaryId in db.coordinators then db.coordinators[x.beneficiaryId].generation else 0;
    if x.sourceId in db.sources || exists s :: Allocated(db, x, s) then r == Err(SourceBindingConflict)
    else if generation == I64_MAX then r == Err(GenerationOverflow)
    else if head == Some(I64_MAX) then r == Err(Store(RevisionOverflow))
    else
      && r.Ok?
      && r.value.1 == RegistrationReceipt(x.sourceId, generation + 1,
                                          Some(if head.Some? then head.value + 1 else 1), Applied)
  }

  ghost predicate RegisterEndsAs(
    db: Db, op: string, x: SourceBinding, r: Result<(Db, RegistrationReceipt), ReconciliationError>)
  {
    if Blank(op) then r == Err(ReconciliationError.EmptyOperationId)
    else if HasBlankField(x) then r == Err(InvalidSource)
    else if exists s :: Used(db, x.beneficiaryId, op, s) then
      if x.sourceId in db.sources && db.sources[x.sourceId].binding == x
         && db.sources[x.sourceId].operationId == op
      then r == Ok((db, RegistrationReceipt(x.sourceId, db.sources[x.sourceId].generation,
                                            db.sources[x.sourceId].projectionRevision, AlreadyApplied)))
      else r == Err(RegistrationConflict)
    else NewEndsAs(db, x, r)
  }

  /** A registration repeats the earlier one of its operation, conflicts with it, names a source or an
      allocation that is taken, meets a full counter, or takes the next generation and revision. */
  lemma RegisterEnds(db: Db, op: string, x: SourceBinding)
    requires Inv(db)
    ensures RegisterEndsAs(db, op, x, RegisterSource(db, op, x))
  {
    hide LogInv, Generations, Sources, Attempts, Revisions, Coordinators, RegisterNew, RegisterAgain, RegistrationOp;
    hide NewEndsAs;
    var b := x.beneficiaryId;
    assert ValidateBinding(x).Err? <==> HasBlankField(x);
    assert forall s :: Registers(db.sources, b, op, s) <==> Used(db, b, op, s);
    if !Blank(op) && !HasBlankField(x) {
      RegisterLocks(db, op, x);
      if FindRegistration(db.sources, b, op).Some? {
        var s := FindRegistration(db.sources, b, op).value;
        RegisterRepeats(db, op, x, s);
        OneUser(db, b, op, s, x);
      } else {
        RegistrationUnpublished(db, b, op);
        NewEnds(db, op, x);
      }
    }
  }

  lemma OneUser(db: Db, b: string, op: string, s: string, x: SourceBinding)
    requires OneRegistrationEach(db.sources) && Registers(db.sources, b, op, s) && x.beneficiaryId == b
    requires db.sources[s].binding == x ==> s == x.sourceId
    ensures (x.sourceId in db.sources && db.sources[x.sourceId].binding == x
             && db.sources[x.sourceId].operationId == op) <==> db.sources[s].binding == x
  {
    if x.sourceId in db.sources && db.sources[x.sourceId].binding == x && db.sources[x.sourceId].operationId == op {
      assert Registers(db.sources, b, op, x.sourceId);
    }
  }

  lemma NewEnds(db: Db, op: string, x: SourceBinding)
    requires LogInv(db.store) && Unpublished(db.store, x.beneficiaryId, RegistrationOp(op))
    requires ValidateBinding(x).Ok?
    ensures NewEndsAs(db, x, RegisterNew(db, op, x, HeadOf(db.store, x.beneficiaryId)))
  {
    hide LogInv, Publish, Unpublished, GoodRequest, RegistrationRequest, RegistrationOp, Registered;
    hide AllocationTaken, Allocated;
    var q := RegistrationRequest(x, op, HeadOf(db.store, x.beneficiaryId));
    GoodRegistration(op, x, HeadOf(db.store, x.beneficiaryId));
    PublishFresh(db.store, q);
    TakenIsAllocated(db, x);
  }

  lemma TakenIsAllocated(db: Db, x: SourceBinding)
    ensures AllocationTaken(db.sources, x) <==> exists s :: Allocated(db, x, s)
  {
    if AllocationTaken(db.sources, x) {
      var s :| s in db.sources
               && db.sources[s].binding.providerNamespace == x.providerNamespace
               && db.sources[s].binding.externalAllocationReference == x.externalAllocationReference;
      assert Allocated(db, x, s);
    }
  }

  // ---------- beginning ----------

  /** A begin reads back an attempt as it was stored, or stores one at the next epoch. */
  lemma BeginEnds(db: Db, b: string, id: string)
    requires Inv(db)
    ensures var r := BeginCollection(db, b, id);
            if Blank(b) then r == Err(InvalidIdentifier)
            else if Blank(id) then r == Err(EmptyAttemptId)
            else if b !in db.coordinators then r == Err(NoSources)
            else if (b, id) in db.attempts then
              && r.Ok? && r.value.0 == db
              && TicketReads(db, b, id, r.value.1)
            else if db.coordinators[b].epoch == I64_MAX then r == Err(EpochOverflow)
            else
              && r.Ok? && (b, id) in r.value.0.attempts
              && TicketReads(r.value.0, b, id, r.value.1)
              && r.value.1.epoch == db.coordinators[b].epoch + 1
              && r.value.1.generation == db.coordinators[b].generation
              && r.value.1.expected == HeadOf(db.store, b)
              && r.value.1.status == Pending && r.value.1.completedRevision == None
  {
    hide LogInv, Coordinators, Generations, Sources, Attempts, Revisions, BeginNew;
    if !Blank(b) && !Blank(id) && b in db.coordinators {
      if (b, id) in db.attempts {
        StoredAttemptValid(db, b, id);
        TicketShows(db, b, id);
      } else {
        FreshBeginSucceedsWhen(db, b, id);
        if db.coordinators[b].epoch < I64_MAX {
          BeginCases(db, b, id);
          BeginApplied(db, b, id);
          TicketShows(BeginCollection(db, b, id).value.0, b, id);
        }
      }
    }
  }

  /** The ticket says what is stored of the attempt; its bindings are those of exactly the sources of the
      beneficiary registered up to its generation, ascending by source. */
  ghost predicate TicketReads(db: Db, b: string, id: string, t: CollectionTicket)
    requires (b, id) in db.attempts
  {
    var a := db.attempts[(b, id)];
    && t.beneficiaryId == b && t.attemptId == id
    && t.epoch == a.epoch && t.generation == a.generation && t.expected == a.expected
    && t.status == a.status && t.completedRevision == a.revision
    && BindsSources(db, b, a.generation, t.bindings)
  }

  ghost predicate BindsSources(db: Db, b: string, generation: Int64, bindings: seq<SourceBinding>) {
    && (forall i, j :: 0 <= i < j < |bindings| ==> Ordering.StrLt(bindings[i].sourceId, bindings[j].sourceId))
    && (forall x :: x in bindings <==>
          exists s :: s in db.sources && db.sources[s].binding == x && db.sources[s].binding.beneficiaryId == b
                      && db.sources[s].generation <= generation)
  }

  lemma TicketShows(db: Db, b: string, id: string)
    requires Sources(db) && (b, id) in db.attempts
    ensures TicketReads(db, b, id, StoredTicket(db, b, id))
  {
    hide Ordering.StrLt, Sources;
    BindingsBind(db, b, db.attempts[(b, id)].generation);
  }

  lemma BindingsBind(db: Db, b: string, generation: Int64)
    requires Sources(db)
    ensures BindsSources(db, b, generation, BindingsAt(db, b, generation))
  {
    hide Sources, Ordering.StrLt, Ordering.SortedKeys;
    BindingsShape(db, b, generation);
    var keys := SourceKeysUpTo(db.sources, b, generation);
    var ids, xs := Ordering.SortedKeys(keys), BindingsAt(db, b, generation);
    forall x
      ensures x in xs <==>
              exists s :: s in db.sources && db.sources[s].binding == x && db.sources[s].binding.beneficiaryId == b
                          && db.sources[s].generation <= generation
    {
      if i :| 0 <= i < |xs| && xs[i] == x {
        assert ids[i] in keys;
      }
      if s :| s in db.sources && db.sources[s].binding == x && db.sources[s].binding.beneficiaryId == b
              && db.sources[s].generation <= generation {
        assert s in keys && s in ids;
        var i :| 0 <= i < |ids| && ids[i] == s;
        assert xs[i] == x;
      }
    }
    forall i, j | 0 <= i < j < |xs| ensures Ordering.StrLt(xs[i].sourceId, xs[j].sourceId) {
      assert Ordering.StrLt(BindingKey(xs[i]), BindingKey(xs[j]));
    }
  }

  // ---------- finishing ----------

  /** The ticket held is the one stored. */
  ghost predicate Holds(db: Db, t: CollectionTicket)
    requires (t.beneficiaryId, t.attemptId) in db.attempts
  {
    var a := db.attempts[(t.beneficiaryId, t.attemptId)];
    && t.epoch == a.epoch && t.generation == a.generation && t.expected == a.expected
    && t.bindings == BindingsAt(db, t.beneficiaryId, a.generation)
  }

  /** How a finish of a pending attempt ends, given what its observations combine to. */
  ghost predicate PendingEndsAs(
    t: CollectionTicket, evidence: string, head: Option<Int64>,
    combined: Result<(Json.Value, Projection), ReconciliationError>,
    r: Result<(Db, ReconciliationReceipt), ReconciliationError>)
  {
    if Blank(evidence) then r == Err(InvalidIdentifier)
    else if combined.Err? then r == Err(combined.error)
    else if head == Some(I64_MAX) then r == Err(Store(RevisionOverflow))
    else
      && head.Some? && r.Ok?
      && r.value.1 == ReconciliationReceipt(t.attemptId, head.value + 1, Applied)
  }

  /** How any finish ends: with the stored ticket it goes by the state of the attempt. Superseded, it is
      refused; completed, it is answered again for the very evidence and content stored; pending, it is
      published next to the head. */
  ghost predicate FinishEndsAs(
    db: Db, t: CollectionTicket, evidence: string,
    combined: Result<(Json.Value, Projection), ReconciliationError>,
    r: Result<(Db, ReconciliationReceipt), ReconciliationError>)
  {
    var b, key := t.beneficiaryId, (t.beneficiaryId, t.attemptId);
    if Blank(b) then r == Err(InvalidIdentifier)
    else if Blank(t.attemptId) then r == Err(EmptyAttemptId)
    else if b !in db.coordinators then r == Err(NoSources)
    else if key !in db.attempts then r == Err(AttemptMissing)
    else if !Holds(db, t) then r == Err(CollectionConflict)
    else
      match db.attempts[key].status
      case Superseded => r == Err(AttemptSuperseded)
      case Completed =>
        && db.attempts[key].revision.Some?
        && r == if combined.Ok? && db.attempts[key].evidence == Some(evidence)
                   && db.attempts[key].result == Some(combined.value.0)
                then Ok((db, ReconciliationReceipt(t.attemptId, db.attempts[key].revision.value, AlreadyApplied)))
                else Err(ReconciliationError.OperationConflict)
      case Pending => PendingEndsAs(t, evidence, HeadOf(db.store, b), combined, r)
  }

  lemma FinishEnds(db: Db, t: CollectionTicket, evidence: string, obs: seq<Observation>)
    requires Inv(db)
    ensures FinishEndsAs(db, t, evidence, CanonicalCollection(t.beneficiaryId, t.bindings, obs, evidence),
                         FinishCollection(db, t, evidence, obs))
  {
    hide LogInv, Coordinators, Generations, Sources, Revisions, CanonicalCollection, BindingsAt, FinishPending;
    hide PendingEndsAs;
    var b, key := t.beneficiaryId, (t.beneficiaryId, t.attemptId);
    if !Blank(b) && !Blank(t.attemptId) && b in db.coordinators && key in db.attempts {
      assert AttemptInv(db, b, t.attemptId);
      FinishReduces(db, t, evidence, obs);
      if db.attempts[key].status == Pending {
        FinishUnsettled(db, t, evidence, obs);
        if Holds(db, t) {
          PendingEnds(db, t, evidence, obs);
        }
      }
    }
  }

  lemma PendingEnds(db: Db, t: CollectionTicket, evidence: string, obs: seq<Observation>)
    requires LogInv(db.store) && Coordinators(db) && Revisions(db)
    requires t.beneficiaryId in db.coordinators && (t.beneficiaryId, t.attemptId) in db.attempts
    requires AttemptInv(db, t.beneficiaryId, t.attemptId)
    requires db.attempts[(t.beneficiaryId, t.attemptId)].status == Pending
    requires SameTicket(StoredTicket(db, t.beneficiaryId, t.attemptId), t)
    ensures PendingEndsAs(t, evidence, HeadOf(db.store, t.beneficiaryId),
                          CanonicalCollection(t.beneficiaryId, t.bindings, obs, evidence),
                          FinishPending(db, t, evidence, obs))
  {
    hide LogInv, Coordinators, Revisions, CanonicalCollection, BindingsAt, Publish, FinishPending, AttemptInv, SameTicket;
    FinishPendingReduces(db, t, evidence, obs);
    if !Blank(evidence) && CanonicalCollection(t.beneficiaryId, t.bindings, obs, evidence).Ok? {
      var (result, projection) := CanonicalCollection(t.beneficiaryId, t.bindings, obs, evidence).value;
      FinishPublishes(db, t, evidence, obs, result, projection);
    }
  }
}
