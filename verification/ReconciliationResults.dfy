/** The coordinator's main results, over every run of any workers from the empty database. */
module ReconciliationResults {
  import opened Outcomes
  import opened Ordering
  import opened Text
  import opened Coverage
  import opened Evaluation
  import opened CoverageStore
  import opened Collection
  import opened StoredForms
  import opened Reconciliation
  import opened ReconciliationRuns

  // ---------- the main results ----------

  /** At most one attempt per beneficiary is pending, it is the current one, and it still expects the
      head. */
  lemma OnePendingAttempt(steps: seq<Step>, b: string, id: string)
    ensures var db := Run(EMPTY, steps);
            (b, id) in db.attempts && db.attempts[(b, id)].status == Pending ==>
              && b in db.coordinators
              && db.coordinators[b].currentAttempt == Some(id)
              && db.attempts[(b, id)].generation == db.coordinators[b].generation
              && db.attempts[(b, id)].expected == HeadOf(db.store, b)
              && forall other :: (b, other) in db.attempts && db.attempts[(b, other)].status == Pending ==>
                   other == id
  {
    EmptyInv();
    RunKeepsInv(EMPTY, steps);
    var db := Run(EMPTY, steps);
    forall other | (b, other) in db.attempts ensures AttemptInv(db, b, other) {}
  }

  /** A pending attempt finishes with a batch exactly when the batch is acceptable and its evidence is
      named: nothing else can get in the way but a head that cannot be counted past. */
  lemma PendingFinishes(
    steps: seq<Step>, t: CollectionTicket, evidence: string, obs: seq<Observation>)
    requires var db := Run(EMPTY, steps);
             && (t.beneficiaryId, t.attemptId) in db.attempts
             && db.attempts[(t.beneficiaryId, t.attemptId)].status == Pending
             && SameTicket(StoredTicket(db, t.beneficiaryId, t.attemptId), t)
    ensures var db := Run(EMPTY, steps);
            var head := HeadOf(db.store, t.beneficiaryId);
            && head.Some?
            && (FinishCollection(db, t, evidence, obs).Ok? <==>
                  && !Blank(evidence)
                  && CanonicalCollection(t.beneficiaryId, t.bindings, obs, evidence).Ok?
                  && head.value < I64_MAX)
            && (FinishCollection(db, t, evidence, obs).Ok? ==>
                  FinishCollection(db, t, evidence, obs).value.1 ==
                  ReconciliationReceipt(t.attemptId, head.value + 1, Applied))
  {
    EmptyInv();
    RunKeepsInv(EMPTY, steps);
    PendingFinishesWhen(Run(EMPTY, steps), t, evidence, obs);
  }

  lemma PendingFinishesWhen(db: Db, t: CollectionTicket, evidence: string, obs: seq<Observation>)
    requires Inv(db)
    requires (t.beneficiaryId, t.attemptId) in db.attempts
    requires db.attempts[(t.beneficiaryId, t.attemptId)].status == Pending
    requires SameTicket(StoredTicket(db, t.beneficiaryId, t.attemptId), t)
    ensures var head := HeadOf(db.store, t.beneficiaryId);
            && head.Some?
            && (FinishCollection(db, t, evidence, obs).Ok? <==>
                  && !Blank(evidence)
                  && CanonicalCollection(t.beneficiaryId, t.bindings, obs, evidence).Ok?
                  && head.value < I64_MAX)
            && (FinishCollection(db, t, evidence, obs).Ok? ==>
                  FinishCollection(db, t, evidence, obs).value.1 ==
                  ReconciliationReceipt(t.attemptId, head.value + 1, Applied))
  {
    assert AttemptInv(db, t.beneficiaryId, t.attemptId);
    FinishReduces(db, t, evidence, obs);
    FinishUnsettled(db, t, evidence, obs);
    FinishPendingReduces(db, t, evidence, obs);
    if !Blank(evidence) && CanonicalCollection(t.beneficiaryId, t.bindings, obs, evidence).Ok? {
      var (result, projection) := CanonicalCollection(t.beneficiaryId, t.bindings, obs, evidence).value;
      FinishPublishes(db, t, evidence, obs, result, projection);
    }
  }

  lemma SupersededFails(db: Db, t: CollectionTicket, evidence: string, obs: seq<Observation>)
    requires Inv(db) && (t.beneficiaryId, t.attemptId) in db.attempts
    requires db.attempts[(t.beneficiaryId, t.attemptId)].status == Superseded
    ensures FinishCollection(db, t, evidence, obs).Err?
    ensures Unpublished(db.store, t.beneficiaryId, CollectionOp(t.attemptId))
  {
    assert AttemptInv(db, t.beneficiaryId, t.attemptId);
    FinishReduces(db, t, evidence, obs);
    FinishSettled(db, t, evidence, obs);
    UnfinishedUnpublished(db, t.beneficiaryId, t.attemptId);
  }

  /** Once superseded, an attempt stays superseded and never publishes, whoever still holds it. */
  lemma SupersededNeverPublishes(
    steps: seq<Step>, more: seq<Step>, t: CollectionTicket, evidence: string, obs: seq<Observation>)
    requires var db := Run(EMPTY, steps);
             && (t.beneficiaryId, t.attemptId) in db.attempts
             && db.attempts[(t.beneficiaryId, t.attemptId)].status == Superseded
    ensures var later := Run(Run(EMPTY, steps), more);
            && (t.beneficiaryId, t.attemptId) in later.attempts
            && later.attempts[(t.beneficiaryId, t.attemptId)].status == Superseded
            && FinishCollection(later, t, evidence, obs).Err?
            && Unpublished(later.store, t.beneficiaryId, CollectionOp(t.attemptId))
  {
    hide Inv, Run, FinishCollection, Unpublished;
    EmptyInv();
    RunKeepsInv(EMPTY, steps);
    RunKeepsInv(Run(EMPTY, steps), more);
    SupersededFails(Run(Run(EMPTY, steps), more), t, evidence, obs);
  }

  // ---------- replays ----------

  lemma FinishEffectReplays(
    db: Db, t: CollectionTicket, evidence: string, obs: seq<Observation>, after: Db, revision: Int64)
    requires FinishEffect(db, t, evidence, obs, after, revision)
    ensures FinishReplays(after, t, evidence, obs, ReconciliationReceipt(t.attemptId, revision, AlreadyApplied))
  {
    assert BindingsAt(after, t.beneficiaryId, t.generation) == BindingsAt(db, t.beneficiaryId, t.generation);
  }

  lemma FinishedReplays(db: Db, t: CollectionTicket, evidence: string, obs: seq<Observation>)
    requires Inv(db) && FinishCollection(db, t, evidence, obs).Ok?
    ensures var (after, receipt) := FinishCollection(db, t, evidence, obs).value;
            && Inv(after) && Later(db, after)
            && FinishReplays(after, t, evidence, obs, receipt.(outcome := AlreadyApplied))
  {
    FinishCases(db, t, evidence, obs);
    var (after, receipt) := FinishCollection(db, t, evidence, obs).value;
    FinishOutcome(db, t, evidence, obs, after, receipt);
  }

  lemma FinishOutcome(
    db: Db, t: CollectionTicket, evidence: string, obs: seq<Observation>, after: Db,
    receipt: ReconciliationReceipt)
    requires Inv(db)
    requires match receipt.outcome
             case AlreadyApplied => after == db && FinishReplays(db, t, evidence, obs, receipt)
             case Applied =>
               && receipt.attemptId == t.attemptId
               && FinishEffect(db, t, evidence, obs, after, receipt.revision)
    ensures Inv(after) && Later(db, after)
    ensures FinishReplays(after, t, evidence, obs, receipt.(outcome := AlreadyApplied))
  {
    hide CanonicalCollection;
    if receipt.outcome == Applied {
      FinishKeepsInv(db, t, evidence, obs, after, receipt.revision);
      FinishLater(db, t, evidence, obs, after, receipt.revision);
      FinishEffectReplays(db, t, evidence, obs, after, receipt.revision);
    }
  }

  lemma ReplayLasts(
    db: Db, later: Db, t: CollectionTicket, evidence: string, obs: seq<Observation>,
    again: seq<Observation>, receipt: ReconciliationReceipt)
    requires Inv(db) && Inv(later) && Later(db, later) && SameBatch(obs, again)
    requires FinishReplays(db, t, evidence, obs, receipt)
    ensures FinishReplays(later, t, evidence, again, receipt)
  {
    hide BindingsAt, CanonicalCollection;
    var b, key := t.beneficiaryId, (t.beneficiaryId, t.attemptId);
    assert AttemptInv(db, b, t.attemptId) && AttemptInv(later, b, t.attemptId);
    CollectionIgnoresOrder(b, t.bindings, obs, again, evidence);
    SameStoredBindings(db, later, b, t.attemptId);
  }

  /** The stored bindings of an attempt never change. */
  lemma SameStoredBindings(db: Db, later: Db, b: string, id: string)
    requires Inv(db) && Inv(later) && Later(db, later) && (b, id) in db.attempts
    ensures (b, id) in later.attempts
    ensures BindingsAt(later, b, later.attempts[(b, id)].generation) ==
            BindingsAt(db, b, db.attempts[(b, id)].generation)
  {
    StoredBindingsParse(db, b, id);
    StoredBindingsParse(later, b, id);
    assert LaterAttempt(db.attempts[(b, id)], later.attempts[(b, id)]);
  }

  lemma StoredBindingsParse(db: Db, b: string, id: string)
    requires Inv(db) && (b, id) in db.attempts
    ensures ParseStoredBindings(db.attempts[(b, id)].bindings, b) ==
            Ok(BindingsAt(db, b, db.attempts[(b, id)].generation))
  {
    assert AttemptInv(db, b, id);
    BindingsShape(db, b, db.attempts[(b, id)].generation);
    BindingsNonempty(db, b, db.attempts[(b, id)].generation);
    BindingsRoundTrip(BindingsAt(db, b, db.attempts[(b, id)].generation), b);
  }

  lemma ReplayAnswers(
    db: Db, t: CollectionTicket, evidence: string, obs: seq<Observation>, receipt: ReconciliationReceipt)
    requires Inv(db) && FinishReplays(db, t, evidence, obs, receipt)
    ensures FinishCollection(db, t, evidence, obs) == Ok((db, receipt))
  {
    assert AttemptInv(db, t.beneficiaryId, t.attemptId);
    FinishReduces(db, t, evidence, obs);
    FinishSettled(db, t, evidence, obs);
  }

  /** Finishing again after any later steps returns the original revision and changes nothing, with
      the observations and their facts in any order and repetition. */
  lemma FinishReplay(
    steps: seq<Step>, t: CollectionTicket, evidence: string, obs: seq<Observation>,
    more: seq<Step>, again: seq<Observation>)
    requires FinishCollection(Run(EMPTY, steps), t, evidence, obs).Ok? && SameBatch(obs, again)
    ensures var (after, receipt) := FinishCollection(Run(EMPTY, steps), t, evidence, obs).value;
            var later := Run(after, more);
            FinishCollection(later, t, evidence, again) ==
              Ok((later, ReconciliationReceipt(t.attemptId, receipt.revision, AlreadyApplied)))
  {
    EmptyInv();
    RunKeepsInv(EMPTY, steps);
    FinishedReplays(Run(EMPTY, steps), t, evidence, obs);
    var (after, receipt) := FinishCollection(Run(EMPTY, steps), t, evidence, obs).value;
    RunKeepsInv(after, more);
    var replay := receipt.(outcome := AlreadyApplied);
    ReplayLasts(after, Run(after, more), t, evidence, obs, again, replay);
    ReplayAnswers(Run(after, more), t, evidence, again, replay);
  }

  lemma RegisteredStays(db: Db, op: string, x: SourceBinding)
    requires Inv(db) && RegisterSource(db, op, x).Ok?
    ensures var (after, receipt) := RegisterSource(db, op, x).value;
            && Inv(after)
            && !Blank(op) && ValidateBinding(x).Ok?
            && Registers(after.sources, x.beneficiaryId, op, x.sourceId)
            && after.sources[x.sourceId].binding == x
            && receipt.(outcome := AlreadyApplied) ==
                 RegistrationReceipt(x.sourceId, after.sources[x.sourceId].generation,
                                     after.sources[x.sourceId].projectionRevision, AlreadyApplied)
  {
    hide Generations, Coordinators, Attempts, Revisions, RegisterStep, RegistrationOp, LogInv, RegisterNew;
    RegisterCases(db, op, x);
    RegisterReduces(db, op, x);
    var (after, receipt) := RegisterSource(db, op, x).value;
    if receipt.outcome == Applied {
      RegisterHasEffect(db, op, x, after, receipt.projectionRevision.value);
      RegisterKeepsInv(db, op, x, after, receipt.projectionRevision.value);
    } else {
      assert SourceInv(db, x.sourceId);
    }
  }

  lemma RegisterAnswers(db: Db, op: string, x: SourceBinding)
    requires Inv(db) && !Blank(op) && ValidateBinding(x).Ok?
    requires Registers(db.sources, x.beneficiaryId, op, x.sourceId) && db.sources[x.sourceId].binding == x
    ensures RegisterSource(db, op, x) ==
            Ok((db, RegistrationReceipt(x.sourceId, db.sources[x.sourceId].generation,
                                        db.sources[x.sourceId].projectionRevision, AlreadyApplied)))
  {
    RegisterLocks(db, op, x);
    RegisterRepeats(db, op, x, x.sourceId);
    assert FindRegistration(db.sources, x.beneficiaryId, op) == Some(x.sourceId);
  }

  lemma RegistrationStays(db: Db, later: Db, op: string, x: SourceBinding)
    requires Later(db, later) && Registers(db.sources, x.beneficiaryId, op, x.sourceId)
    ensures Registers(later.sources, x.beneficiaryId, op, x.sourceId)
    ensures later.sources[x.sourceId] == db.sources[x.sourceId]
  {
  }

  lemma RegistrationAnsweredLater(after: Db, op: string, x: SourceBinding, more: seq<Step>)
    requires Inv(after) && !Blank(op) && ValidateBinding(x).Ok?
    requires Registers(after.sources, x.beneficiaryId, op, x.sourceId)
    requires after.sources[x.sourceId].binding == x
    ensures RegisterSource(Run(after, more), op, x) ==
            Ok((Run(after, more),
                RegistrationReceipt(x.sourceId, after.sources[x.sourceId].generation,
                                    after.sources[x.sourceId].projectionRevision, AlreadyApplied)))
  {
    RunKeepsInv(after, more);
    RegistrationStays(after, Run(after, more), op, x);
    RegisterAnswers(Run(after, more), op, x);
  }

  /** Registering again after any later steps returns the original receipt and changes nothing. */
  lemma RegisterReplay(steps: seq<Step>, op: string, x: SourceBinding, more: seq<Step>)
    requires RegisterSource(Run(EMPTY, steps), op, x).Ok?
    ensures var (after, receipt) := RegisterSource(Run(EMPTY, steps), op, x).value;
            var later := Run(after, more);
            RegisterSource(later, op, x) == Ok((later, receipt.(outcome := AlreadyApplied)))
  {
    EmptyInv();
    RunKeepsInv(EMPTY, steps);
    var db := Run(EMPTY, steps);
    RegisteredStays(db, op, x);
    RegistrationAnsweredLater(RegisterSource(db, op, x).value.0, op, x, more);
  }

  // ---------- a complete head covers every source ----------

  /** `obs` is what the head combines: the batch whose combination the completed attempt stores and
      published, of the current generation, with one complete observation of every source now
      registered, each speaking of its own facts. */
  ghost predicate HeadCombines(db: Db, b: string, id: string, obs: seq<Observation>)
    requires b in db.coordinators
  {
    && (b, id) in db.attempts && db.attempts[(b, id)].status == Completed
    && db.attempts[(b, id)].generation == db.coordinators[b].generation
    && db.attempts[(b, id)].revision == HeadOf(db.store, b)
    && CompletedBy(db, b, id, db.attempts[(b, id)], obs)
    && Seen(obs) == SourceKeys(db.sources, b)
    && Batch(SourceKeys(db.sources, b), obs)
    && CombinedReason(obs).None?
    && Normalise(b, AllFacts(obs)).Ok?
  }

  /** Step `i` of the run was the finish that completed the attempt, with these observations. */
  ghost predicate CompletedAt(steps: seq<Step>, i: nat, b: string, id: string, obs: seq<Observation>, revision: Int64)
  {
    && i < |steps|
    && steps[i].Finish?
    && steps[i].ticket.beneficiaryId == b && steps[i].ticket.attemptId == id
    && steps[i].observations == obs
    && var r := FinishCollection(Run(EMPTY, steps[..i]), steps[i].ticket, steps[i].evidence, obs);
       r.Ok? && r.value.1 == ReconciliationReceipt(id, revision, Applied)
  }

  ghost predicate IsCompleted(db: Db, b: string, id: string) {
    (b, id) in db.attempts && db.attempts[(b, id)].status == Completed
  }

  lemma RegisterCompletesNone(db: Db, op: string, x: SourceBinding, b: string, id: string)
    requires Inv(db) && IsCompleted(Apply(db, Register(op, x)), b, id)
    ensures IsCompleted(db, b, id)
  {
    hide Inv, RegisterSource, RegistrationOp;
    if RegisterSource(db, op, x).Ok? {
      RegisterCases(db, op, x);
      var (after, receipt) := RegisterSource(db, op, x).value;
      if receipt.outcome == Applied {
        RegisterHasEffect(db, op, x, after, receipt.projectionRevision.value);
      }
    }
  }

  lemma BeginCompletesNone(db: Db, beneficiary: string, attempt: string, b: string, id: string)
    requires Inv(db) && IsCompleted(Apply(db, Begin(beneficiary, attempt)), b, id)
    ensures IsCompleted(db, b, id)
  {
    hide Inv, BeginCollection, StoredTicket, BindingsAt;
    if BeginCollection(db, beneficiary, attempt).Ok? {
      BeginCases(db, beneficiary, attempt);
    }
  }

  /** Only its own finish completes an attempt. */
  lemma FinishCompletesOwn(db: Db, t: CollectionTicket, evidence: string, obs: seq<Observation>, b: string, id: string)
    requires Inv(db) && IsCompleted(Apply(db, Finish(t, evidence, obs)), b, id) && !IsCompleted(db, b, id)
    ensures FinishCollection(db, t, evidence, obs).Ok?
    ensures var (after, receipt) := FinishCollection(db, t, evidence, obs).value;
            && t.beneficiaryId == b && t.attemptId == id
            && receipt.outcome == Applied && receipt.attemptId == id
            && (b, id) in after.attempts && after.attempts[(b, id)].revision == Some(receipt.revision)
            && CompletedBy(after, b, id, after.attempts[(b, id)], obs)
  {
    hide Inv, FinishCollection, CompletedBy, FinishEffect, FinishReplays;
    if FinishCollection(db, t, evidence, obs).Ok? {
      FinishCases(db, t, evidence, obs);
      var (after, receipt) := FinishCollection(db, t, evidence, obs).value;
      if receipt.outcome == Applied {
        FinishCompletes(db, t, evidence, obs, after, receipt.revision);
      }
    }
  }

  lemma FinishCompletes(
    db: Db, t: CollectionTicket, evidence: string, obs: seq<Observation>, after: Db, revision: Int64)
    requires Inv(db) && FinishEffect(db, t, evidence, obs, after, revision)
    ensures var key := (t.beneficiaryId, t.attemptId);
            && key in after.attempts && after.attempts[key].revision == Some(revision)
            && CompletedBy(after, t.beneficiaryId, t.attemptId, after.attempts[key], obs)
    ensures forall k :: k in after.attempts && k != (t.beneficiaryId, t.attemptId) ==>
              k in db.attempts && after.attempts[k] == db.attempts[k]
  {
    hide CanonicalCollection;
  }

  lemma CompletedByLater(db: Db, later: Db, b: string, id: string, obs: seq<Observation>)
    requires Inv(db) && Inv(later) && Later(db, later)
    requires IsCompleted(db, b, id) && CompletedBy(db, b, id, db.attempts[(b, id)], obs)
    ensures IsCompleted(later, b, id) && later.attempts[(b, id)] == db.attempts[(b, id)]
    ensures CompletedBy(later, b, id, later.attempts[(b, id)], obs)
  {
    hide CanonicalCollection, BindingsAt, Inv;
    assert LaterAttempt(db.attempts[(b, id)], later.attempts[(b, id)]);
    SameStoredBindings(db, later, b, id);
  }

  /** Every completed attempt was completed by a finish of the run, and stores and published what that
      finish's observations combine to. */
  lemma {:induction false} CompletingStep(steps: seq<Step>, b: string, id: string)
    returns (i: nat)
    requires IsCompleted(Run(EMPTY, steps), b, id)
    ensures i < |steps| && steps[i].Finish?
    ensures var a := Run(EMPTY, steps).attempts[(b, id)];
            && a.revision.Some?
            && CompletedAt(steps, i, b, id, steps[i].observations, a.revision.value)
            && CompletedBy(Run(EMPTY, steps), b, id, a, steps[i].observations)
  {
    hide CompletedBy, FinishCollection, Apply, Inv, Later;
    i := 0;
    if steps != [] {
      var n := |steps| - 1;
      var init, last := steps[..n], steps[n];
      var db := Run(EMPTY, init);
      EmptyInv();
      RunKeepsInv(EMPTY, init);
      RunKeepsInv(EMPTY, steps);
      ApplyKeepsInv(db, last);
      if IsCompleted(db, b, id) {
        i := CompletingStep(init, b, id);
        assert init[..i] == steps[..i];
        CompletedByLater(db, Run(EMPTY, steps), b, id, init[i].observations);
      } else {
        CompletedByLast(db, last, b, id);
        i := n;
      }
    }
  }

  lemma CompletedByLast(db: Db, last: Step, b: string, id: string)
    requires Inv(db) && IsCompleted(Apply(db, last), b, id) && !IsCompleted(db, b, id)
    ensures last.Finish? && last.ticket.beneficiaryId == b && last.ticket.attemptId == id
    ensures var r := FinishCollection(db, last.ticket, last.evidence, last.observations);
            var a := Apply(db, last).attempts[(b, id)];
            && r.Ok? && a.revision.Some? && r.value.1 == ReconciliationReceipt(id, a.revision.value, Applied)
            && CompletedBy(Apply(db, last), b, id, a, last.observations)
  {
    hide CompletedBy, FinishCollection, RegisterSource, BeginCollection, Inv;
    match last
    case Register(op, x) => RegisterCompletesNone(db, op, x, b, id);
    case Begin(beneficiary, attempt) => BeginCompletesNone(db, beneficiary, attempt, b, id);
    case Finish(t, evidence, obs) => FinishCompletesOwn(db, t, evidence, obs, b, id);
  }

  /** A registration's revision is unavailable, so a complete one is not a registration's. */
  lemma HeadNotRegistered(db: Db, b: string, s: string, r: Int64)
    requires LogInv(db.store) && s in db.sources && SourceInv(db, s) && SourceOf(db.sources[s], b)
    requires Publishes(db.store.revisions, b, RegistrationOp(db.sources[s].operationId), r)
    ensures db.store.revisions[(b, r)].status != "complete"
  {
  }

  lemma CompleteHeadAttempt(db: Db, b: string) returns (id: string)
    requires Inv(db) && HeadOf(db.store, b).Some?
    requires (b, HeadOf(db.store, b).value) in db.store.revisions
    requires db.store.revisions[(b, HeadOf(db.store, b).value)].status == "complete"
    ensures (b, id) in db.attempts && db.attempts[(b, id)].status == Completed
    ensures db.attempts[(b, id)].revision == HeadOf(db.store, b)
  {
    assert Numbered(db.store, b);
    var r := HeadOf(db.store, b).value;
    assert RevisionInv(db, b, r);
    var op := db.store.revisions[(b, r)].operationId;
    if s :| s in db.sources && SourceOf(db.sources[s], b)
            && op == RegistrationOp(db.sources[s].operationId) {
      assert SourceInv(db, s);
      HeadNotRegistered(db, b, s, r);
      assert false;
      id := "";
    } else {
      id :| (b, id) in db.attempts && op == CollectionOp(id)
            && db.attempts[(b, id)].status == Completed && db.attempts[(b, id)].revision == Some(r);
    }
  }

  lemma CompletedCombines(db: Db, b: string, id: string, obs: seq<Observation>)
    requires Inv(db) && IsCompleted(db, b, id) && CompletedBy(db, b, id, db.attempts[(b, id)], obs)
    requires db.attempts[(b, id)].revision == HeadOf(db.store, b)
    ensures b in db.coordinators && !Blank(b)
    ensures db.attempts[(b, id)].generation == db.coordinators[b].generation
    ensures Seen(obs) == SourceKeys(db.sources, b) && Batch(SourceKeys(db.sources, b), obs)
    ensures Normalise(b, AllFacts(obs)).Ok?
    ensures HeadOf(db.store, b).Some? && (b, HeadOf(db.store, b).value) in db.store.revisions
    ensures Records(db.store, b, HeadOf(db.store, b).value, CombinedProjection(b, obs))
  {
    var a := db.attempts[(b, id)];
    assert AttemptInv(db, b, id);
    var bindings := BindingsAt(db, b, a.generation);
    CollectionAccepts(b, bindings, obs, a.evidence.value);
    CollectionPublishable(b, bindings, obs, a.evidence.value);
    BindingsShape(db, b, a.generation);
    AllSourcesCurrent(db, b);
  }

  /** In every reachable state, what `Load` returns was published by a finish of the run: its attempt is
      of the current generation, its observations are one complete observation of every source now
      registered, and the facts loaded are exactly their union. So at every instant the decision for
      what is loaded is the decision for all the facts those sources gave. */
  lemma CompleteHeadCoversEverySource(steps: seq<Step>, b: string)
    requires !Blank(b) && Load(Run(EMPTY, steps).store, b).Ok?
    ensures var db := Run(EMPTY, steps);
            && b in db.coordinators
            && exists id, i, obs ::
                 && CompletedAt(steps, i, b, id, obs, Load(db.store, b).value.revision)
                 && HeadCombines(db, b, id, obs)
                 && LoadedFrom(db, b, obs)
  {
    hide CompletedBy, CompletedAt, Batch, FinishCollection, Inv, Seen;
    EmptyInv();
    RunKeepsInv(EMPTY, steps);
    var db := Run(EMPTY, steps);
    LoadedHeadIsComplete(db, b);
    var id := CompleteHeadAttempt(db, b);
    var i := CompletingStep(steps, b, id);
    var obs := steps[i].observations;
    CompletedCombines(db, b, id, obs);
    LoadedCombined(db, b, obs);
    assert HeadCombines(db, b, id, obs);
  }

  /** What is loaded is the union of the observations' facts, and decides as all of them do. */
  ghost predicate LoadedFrom(db: Db, b: string, obs: seq<Observation>) {
    && Load(db.store, b).Ok?
    && Normalise(b, AllFacts(obs)).Ok?
    && Load(db.store, b).value.coverage == PersonCoverage(b, Normalise(b, AllFacts(obs)).value)
    && (forall f :: f in Load(db.store, b).value.coverage.paidIntervals <==> f in AllFacts(obs))
    && (forall now: Int64, d ::
          Decides(Load(db.store, b).value.coverage.paidIntervals, now, d) <==> Decides(AllFacts(obs), now, d))
  }

  lemma LoadedHeadIsComplete(db: Db, b: string)
    requires Inv(db) && !Blank(b) && Load(db.store, b).Ok?
    ensures HeadOf(db.store, b).Some? && b in db.coordinators
    ensures (b, HeadOf(db.store, b).value) in db.store.revisions
    ensures db.store.revisions[(b, HeadOf(db.store, b).value)].status == "complete"
  {
    LoadIsSound(db.store, b);
    CurrentIsHead(db, b);
  }

  lemma LoadedCombined(db: Db, b: string, obs: seq<Observation>)
    requires LogInv(db.store) && !Blank(b) && Load(db.store, b).Ok?
    requires HeadOf(db.store, b).Some? && (b, HeadOf(db.store, b).value) in db.store.revisions
    requires Normalise(b, AllFacts(obs)).Ok?
    requires Records(db.store, b, HeadOf(db.store, b).value, CombinedProjection(b, obs))
    ensures CombinedReason(obs).None?
    ensures Load(db.store, b).value.revision == HeadOf(db.store, b).value
    ensures LoadedFrom(db, b, obs)
  {
    LoadIsSound(db.store, b);
    var r := HeadOf(db.store, b).value;
    var c :| Records(db.store, b, r, c) && ValidProjection(b, c)
             && Load(db.store, b) ==
                  if c.unavailableReason.Some? then Err(ProjectionUnavailable(c.unavailableReason.value))
                  else Ok(LoadedCoverage(r, PersonCoverage(b, c.paidIntervals)));
    RecordsUnique(db.store, b, r, c, CombinedProjection(b, obs));
    DecidesAlike(b, AllFacts(obs));
  }

  lemma DecidesAlike(b: string, facts: seq<Fact>)
    requires Normalise(b, facts).Ok?
    ensures forall f :: f in Normalise(b, facts).value <==> f in facts
    ensures forall now: Int64, d :: Decides(Normalise(b, facts).value, now, d) <==> Decides(facts, now, d)
  {
    hide Decides, Normalise;
    NormaliseAdmits(b, facts);
    forall now: Int64, d
      ensures Decides(Normalise(b, facts).value, now, d) <==> Decides(facts, now, d)
    {
      DecisionIgnoresOrder(Normalise(b, facts).value, facts, now, d);
    }
  }

  // ---------- no operation ever reports corruption ----------

  predicate Corruption(e: ReconciliationError) {
    || e.CorruptAttempt? || e.CorruptRegistration? || e.DatabaseFailure? || e.BootstrapConflict?
    || (e.Store? && (e.cause.CorruptProjection? || e.cause.Database? || e.cause.RevisionConflict?))
  }

  /** A registration repeats an earlier one, or names a source, an allocation and an operation nobody
      has used. */
  ghost predicate Registrable(db: Db, op: string, x: SourceBinding) {
    if exists s :: Registers(db.sources, x.beneficiaryId, op, s)
    then Registers(db.sources, x.beneficiaryId, op, x.sourceId) && db.sources[x.sourceId].binding == x
    else NewlyRegistrable(db, x)
  }

  ghost predicate NewlyRegistrable(db: Db, x: SourceBinding) {
    var head := HeadOf(db.store, x.beneficiaryId);
    && x.sourceId !in db.sources && !AllocationTaken(db.sources, x)
    && CoordinatorAt(db, x.beneficiaryId).generation < I64_MAX
    && (head.Some? ==> head.value < I64_MAX)
  }

  /** A registration succeeds exactly when it is well formed and registrable. */
  lemma RegisterSucceedsWhen(db: Db, op: string, x: SourceBinding)
    requires Inv(db)
    ensures RegisterSource(db, op, x).Ok? <==>
              !Blank(op) && ValidateBinding(x).Ok? && Registrable(db, op, x)
    ensures RegisterSource(db, op, x).Err? ==> !Corruption(RegisterSource(db, op, x).error)
  {
    if !Blank(op) && ValidateBinding(x).Ok? {
      RegisterLocks(db, op, x);
      LockedSucceedsWhen(db, op, x);
    }
  }

  lemma LockedSucceedsWhen(db: Db, op: string, x: SourceBinding)
    requires Inv(db) && ValidateBinding(x).Ok?
    ensures var r := RegisterLocked(db, op, x, HeadOf(db.store, x.beneficiaryId));
            && (r.Ok? <==> Registrable(db, op, x))
            && (r.Err? ==> !Corruption(r.error))
  {
    hide RegistrationOp, RegisterNew, LogInv, Coordinators, Generations, Sources, Attempts, Revisions;
    if FindRegistration(db.sources, x.beneficiaryId, op).Some? {
      var s := FindRegistration(db.sources, x.beneficiaryId, op).value;
      RegisterRepeats(db, op, x, s);
      assert Registers(db.sources, x.beneficiaryId, op, x.sourceId) ==> x.sourceId == s;
    } else {
      RegistrationUnpublished(db, x.beneficiaryId, op);
      NewRegistrationSucceedsWhen(db, op, x);
    }
  }

  lemma GoodRegistration(op: string, x: SourceBinding, expected: Option<Int64>)
    requires ValidateBinding(x).Ok?
    ensures var q := RegistrationRequest(x, op, expected);
            && GoodRequest(q) && q.beneficiaryId == x.beneficiaryId && q.expectedRevision == expected
            && q.operationId == RegistrationOp(op)
  {
    OperationNames(op, op);
  }

  lemma RegisterWithSucceedsWhen(
    db: Db, op: string, x: SourceBinding, p: Result<(Tables, PublicationReceipt), StoreError>)
    ensures var r := RegisterWith(db, op, x, p);
            && (r.Ok? <==>
                  && x.sourceId !in db.sources && !AllocationTaken(db.sources, x)
                  && CoordinatorAt(db, x.beneficiaryId).generation < I64_MAX
                  && p.Ok?)
            && (r.Err? ==> r.error == SourceBindingConflict || r.error == GenerationOverflow
                           || (p.Err? && r.error == Store(p.error)))
  {
  }

  lemma NewRegistrationSucceedsWhen(db: Db, op: string, x: SourceBinding)
    requires LogInv(db.store) && Unpublished(db.store, x.beneficiaryId, RegistrationOp(op))
    requires ValidateBinding(x).Ok?
    ensures var r := RegisterNew(db, op, x, HeadOf(db.store, x.beneficiaryId));
            && (r.Ok? <==> NewlyRegistrable(db, x))
            && (r.Err? ==> !Corruption(r.error))
  {
    hide LogInv, AllocationTaken, Publish, Unpublished, GoodRequest, RegistrationRequest, RegisterWith,
         RegistrationOp;
    var q := RegistrationRequest(x, op, HeadOf(db.store, x.beneficiaryId));
    GoodRegistration(op, x, HeadOf(db.store, x.beneficiaryId));
    PublishFresh(db.store, q);
    RegisterWithSucceedsWhen(db, op, x, Publish(db.store, q));
  }

  lemma BeginSucceedsWhen(db: Db, b: string, id: string)
    requires Inv(db)
    ensures var r := BeginCollection(db, b, id);
            && (r.Ok? <==>
                  && !Blank(b) && !Blank(id) && b in db.coordinators
                  && ((b, id) in db.attempts || db.coordinators[b].epoch < I64_MAX))
            && (r.Err? ==> !Corruption(r.error))
  {
    hide LogInv, Coordinators, Generations, Sources, Attempts, Revisions, BeginNew;
    if !Blank(b) && !Blank(id) && b in db.coordinators {
      if (b, id) in db.attempts {
        StoredAttemptValid(db, b, id);
      } else {
        FreshBeginSucceedsWhen(db, b, id);
      }
    }
  }

  lemma FreshBeginSucceedsWhen(db: Db, b: string, id: string)
    requires LogInv(db.store) && Coordinators(db) && Generations(db) && Sources(db) && Attempts(db)
    requires !Blank(b) && b in db.coordinators
    ensures BeginNew(db, b, id).Ok? <==> db.coordinators[b].epoch < I64_MAX
    ensures BeginNew(db, b, id).Err? ==> BeginNew(db, b, id).error == EpochOverflow
  {
    CurrentIsHead(db, b);
    assert CoordinatorInv(db, b);
    SomeSource(db, b);
    EpochsBounded(db, b);
  }

  lemma SomeSource(db: Db, b: string)
    requires Coordinators(db) && Generations(db) && Sources(db) && b in db.coordinators
    ensures SourceKeys(db.sources, b) != {}
  {
    assert CoordinatorInv(db, b);
    BindingsNonempty(db, b, db.coordinators[b].generation);
    var s :| s in SourceKeysUpTo(db.sources, b, db.coordinators[b].generation);
    assert s in SourceKeys(db.sources, b);
  }

  lemma EpochsBounded(db: Db, b: string)
    requires Attempts(db) && b in db.coordinators
    ensures db.coordinators[b].epoch < I64_MAX ==>
              !EpochTaken(db.attempts, b, db.coordinators[b].epoch + 1)
  {
  }

  lemma FinishNotCorrupt(db: Db, t: CollectionTicket, evidence: string, obs: seq<Observation>)
    requires Inv(db) && FinishCollection(db, t, evidence, obs).Err?
    ensures !Corruption(FinishCollection(db, t, evidence, obs).error)
  {
    hide CanonicalCollection, FinishPending, LogInv, Coordinators, Generations, Sources, Revisions;
    var key := (t.beneficiaryId, t.attemptId);
    if !Blank(t.beneficiaryId) && !Blank(t.attemptId) && t.beneficiaryId in db.coordinators && key in db.attempts {
      assert AttemptInv(db, t.beneficiaryId, t.attemptId);
      FinishReduces(db, t, evidence, obs);
      if db.attempts[key].status != Pending {
        FinishSettled(db, t, evidence, obs);
      } else {
        FinishUnsettled(db, t, evidence, obs);
        if SameTicket(StoredTicket(db, t.beneficiaryId, t.attemptId), t) {
          FinishPendingNotCorrupt(db, t, evidence, obs);
        }
      }
    }
  }

  lemma FinishPendingNotCorrupt(db: Db, t: CollectionTicket, evidence: string, obs: seq<Observation>)
    requires LogInv(db.store) && Coordinators(db) && Revisions(db)
    requires t.beneficiaryId in db.coordinators && (t.beneficiaryId, t.attemptId) in db.attempts
    requires AttemptInv(db, t.beneficiaryId, t.attemptId)
    requires db.attempts[(t.beneficiaryId, t.attemptId)].status == Pending
    requires SameTicket(StoredTicket(db, t.beneficiaryId, t.attemptId), t)
    ensures FinishPending(db, t, evidence, obs).Err? ==>
              !Corruption(FinishPending(db, t, evidence, obs).error)
  {
    FinishPendingReduces(db, t, evidence, obs);
    CollectionErrors(t.beneficiaryId, t.bindings, obs, evidence);
    if !Blank(evidence) && CanonicalCollection(t.beneficiaryId, t.bindings, obs, evidence).Ok? {
      var (result, projection) := CanonicalCollection(t.beneficiaryId, t.bindings, obs, evidence).value;
      FinishPublishes(db, t, evidence, obs, result, projection);
    }
  }

  predicate BatchError(e: ReconciliationError) {
    e.SourceBatchMismatch? || e.SourceObservationConflict? || e.InvalidObservation?
  }

  lemma {:induction false} CollectFactsErrors(acc: Collected, sourceId: string, facts: seq<Fact>)
    ensures CollectFacts(acc, sourceId, facts).Err? ==> BatchError(CollectFacts(acc, sourceId, facts).error)
  {
    if facts != [] {
      CollectFactsErrors(acc, sourceId, facts[..|facts| - 1]);
    }
  }

  lemma {:induction false} CollectAllErrors(b: string, expected: set<string>, obs: seq<Observation>)
    ensures CollectAll(b, expected, obs).Err? ==> BatchError(CollectAll(b, expected, obs).error)
  {
    if obs != [] {
      var init, last := obs[..|obs| - 1], obs[|obs| - 1];
      CollectAllErrors(b, expected, init);
      if CollectAll(b, expected, init).Ok? && last.Observed? && Normalise(b, last.paidIntervals).Ok? {
        var acc := CollectAll(b, expected, init).value;
        CollectFactsErrors(acc.(seen := acc.seen + {last.sourceId}), last.sourceId,
                           Normalise(b, last.paidIntervals).value);
      }
    }
  }

  lemma CollectionErrors(
    b: string, bindings: seq<SourceBinding>, obs: seq<Observation>, evidence: string)
    ensures CanonicalCollection(b, bindings, obs, evidence).Err? ==>
              BatchError(CanonicalCollection(b, bindings, obs, evidence).error)
  {
    CollectAllErrors(b, SourceIds(bindings), obs);
  }

  /** No operation, in any reachable state, reports a corrupt row, a broken constraint, a bootstrap
      conflict or a revision conflict. */
  lemma NeverCorrupt(
    steps: seq<Step>, op: string, x: SourceBinding, b: string, id: string,
    t: CollectionTicket, evidence: string, obs: seq<Observation>)
    ensures var db := Run(EMPTY, steps);
            && (RegisterSource(db, op, x).Err? ==> !Corruption(RegisterSource(db, op, x).error))
            && (BeginCollection(db, b, id).Err? ==> !Corruption(BeginCollection(db, b, id).error))
            && (FinishCollection(db, t, evidence, obs).Err? ==>
                  !Corruption(FinishCollection(db, t, evidence, obs).error))
  {
    EmptyInv();
    RunKeepsInv(EMPTY, steps);
    var db := Run(EMPTY, steps);
    RegisterSucceedsWhen(db, op, x);
    BeginSucceedsWhen(db, b, id);
    if FinishCollection(db, t, evidence, obs).Err? {
      FinishNotCorrupt(db, t, evidence, obs);
    }
  }
}
