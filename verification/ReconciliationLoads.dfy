/** What loading gives at every moment of a run: it follows the last registration or finish of the
    beneficiary that took effect. */
module ReconciliationLoads {
  import opened Outcomes
  import opened Text
  import opened Coverage
  import opened CoverageStore
  import opened Collection
  import opened Reconciliation
  import opened ReconciliationRuns
  import opened ReconciliationResults

  // ---------- one registration ----------

  /** A new registration publishes one revision at the head: unavailable until reconciled, on the
      evidence of ownership, with no facts; so nothing of the beneficiary loads. */
  lemma RegistrationPublishes(db: Db, op: string, x: SourceBinding)
    requires Inv(db) && RegisterSource(db, op, x).Ok? && RegisterSource(db, op, x).value.1.outcome == Applied
    ensures var (after, receipt) := RegisterSource(db, op, x).value;
            var b := x.beneficiaryId;
            && receipt.projectionRevision.Some?
            && after.store.heads == db.store.heads[b := receipt.projectionRevision]
            && after.store.revisions ==
                 db.store.revisions[(b, receipt.projectionRevision.value) :=
                   RevisionRow("source-registration:" + op, HeadOf(db.store, b), x.ownershipEvidenceReference,
                               "unavailable", Some("needs_reconciliation"), 0)]
            && after.store.facts == db.store.facts
            && Load(after.store, b) == Err(ProjectionUnavailable(NeedsReconciliation))
  {
    RegisterCases(db, op, x);
    var (after, receipt) := RegisterSource(db, op, x).value;
    PublishesUnavailable(db, op, x, after, receipt.projectionRevision.value);
  }

  lemma PublishesUnavailable(db: Db, op: string, x: SourceBinding, after: Db, revision: Int64)
    requires Inv(db) && RegisterStep(db, op, x, after, revision)
    ensures var b := x.beneficiaryId;
            && after.store.heads == db.store.heads[b := Some(revision)]
            && after.store.revisions ==
                 db.store.revisions[(b, revision) :=
                   RevisionRow("source-registration:" + op, HeadOf(db.store, b), x.ownershipEvidenceReference,
                               "unavailable", Some("needs_reconciliation"), 0)]
            && after.store.facts == db.store.facts
            && Load(after.store, b) == Err(ProjectionUnavailable(NeedsReconciliation))
  {
    hide Inv, Load;
    InvHasLog(db);
    var q := RegistrationRequest(x, op, HeadOf(db.store, x.beneficiaryId));
    AppendedRow(db.store, q, revision, after.store);
    AppendedKeepsLog(db.store, q, revision, after.store);
    HeadLoads(after.store, x.beneficiaryId, revision, CanonicalProjection("unavailable", Some(NeedsReconciliation), []));
  }

  lemma InvHasLog(db: Db)
    requires Inv(db)
    ensures LogInv(db.store)
  {
  }

  /** What is recorded at the head is what loads. */
  lemma HeadLoads(t: Tables, b: string, r: Int64, c: CanonicalProjection)
    requires LogInv(t) && !Blank(b) && b in t.heads && t.heads[b] == Some(r)
    requires (b, r) in t.revisions && Records(t, b, r, c)
    ensures Load(t, b) ==
            if c.unavailableReason.Some? then Err(ProjectionUnavailable(c.unavailableReason.value))
            else Ok(LoadedCoverage(r, PersonCoverage(b, c.paidIntervals)))
  {
    hide Load, LogInv, Records;
    LoadIsSound(t, b);
    var d :| Records(t, b, r, d) && ValidProjection(b, d)
             && Load(t, b) == if d.unavailableReason.Some?
                              then Err(ProjectionUnavailable(d.unavailableReason.value))
                              else Ok(LoadedCoverage(r, PersonCoverage(b, d.paidIntervals)));
    RecordsUnique(t, b, r, c, d);
  }

  // ---------- one finish ----------

  /** Some source's observation reports the fact. */
  ghost predicate Reported(obs: seq<Observation>, f: Fact) {
    exists o :: o in obs && o.Observed? && f in o.paidIntervals
  }

  /** What a batch of observations makes of the beneficiary, in words of the observations alone. */
  ghost predicate LoadsBatch(
    b: string, obs: seq<Observation>, revision: Int64, r: Result<LoadedCoverage, StoreError>)
  {
    if exists o :: o in obs && o.NotObserved? && o.reason == ConflictingEvidence then
      r == Err(ProjectionUnavailable(ConflictingEvidence))
    else if exists o :: o in obs && o.NotObserved? then
      r == Err(ProjectionUnavailable(NeedsReconciliation))
    else
      && r.Ok?
      && r.value.revision == revision
      && r.value.coverage.beneficiaryId == b
      && (forall f :: f in r.value.coverage.paidIntervals <==> Reported(obs, f))
  }

  /** A finish that takes effect is what loads. */
  lemma FinishLoads(db: Db, t: CollectionTicket, evidence: string, obs: seq<Observation>)
    requires Inv(db) && FinishCollection(db, t, evidence, obs).Ok?
    requires FinishCollection(db, t, evidence, obs).value.1.outcome == Applied
    ensures var (after, receipt) := FinishCollection(db, t, evidence, obs).value;
            && !Blank(t.beneficiaryId)
            && LoadsBatch(t.beneficiaryId, obs, receipt.revision, Load(after.store, t.beneficiaryId))
            && after.store.heads == db.store.heads[t.beneficiaryId := Some(receipt.revision)]
            && Extends(db.store, after.store)
  {
    hide FinishCollection, Inv, FinishReplays, LoadsBatch, Load;
    FinishCases(db, t, evidence, obs);
    var (after, receipt) := FinishCollection(db, t, evidence, obs).value;
    EffectLoads(db, t, evidence, obs, after, receipt.revision);
  }

  lemma EffectLoads(
    db: Db, t: CollectionTicket, evidence: string, obs: seq<Observation>, after: Db, revision: Int64)
    requires Inv(db) && FinishEffect(db, t, evidence, obs, after, revision)
    ensures !Blank(t.beneficiaryId)
    ensures LoadsBatch(t.beneficiaryId, obs, revision, Load(after.store, t.beneficiaryId))
    ensures after.store.heads == db.store.heads[t.beneficiaryId := Some(revision)]
    ensures Extends(db.store, after.store)
  {
    hide Load, CanonicalCollection, CanonicalOf, Records, LogInv, Normalise, AllFacts;
    var b := t.beneficiaryId;
    assert AttemptInv(db, b, t.attemptId);
    var bindings := BindingsAt(db, b, db.attempts[(b, t.attemptId)].generation);
    CollectionPublishable(b, bindings, obs, evidence);
    HeadLoads(after.store, b, revision, CombinedProjection(b, obs));
    NormalFacts(b, obs);
  }

  lemma NormalFacts(b: string, obs: seq<Observation>)
    requires Normalise(b, AllFacts(obs)).Ok?
    ensures forall f :: f in Normalise(b, AllFacts(obs)).value <==> Reported(obs, f)
  {
    hide Normalise, AllFacts;
    NormaliseAdmits(b, AllFacts(obs));
    AllFactsMembers(obs);
    forall f ensures f in AllFacts(obs) <==> Reported(obs, f) {
      if o :| o in obs && f in FactsOf(o) {
        assert o.Observed? && f in o.paidIntervals;
      }
      if o :| o in obs && o.Observed? && f in o.paidIntervals {
        assert f in FactsOf(o);
      }
    }
  }

  // ---------- every other step ----------

  /** Loading reads only the beneficiary's head and what is recorded there. */
  lemma LoadFrame(t: Tables, u: Tables, b: string)
    requires LogInv(t) && LogInv(u) && !Blank(b) && Extends(t, u)
    requires b in t.heads <==> b in u.heads
    requires b in t.heads ==> u.heads[b] == t.heads[b]
    ensures Load(u, b) == Load(t, b)
  {
    assert Numbered(t, b);
    if b in t.heads {
      assert (b, t.heads[b].value) in t.revisions;
    }
  }

  /** The step added a source of the beneficiary. */
  ghost predicate Registering(db: Db, step: Step, b: string) {
    && step.Register? && step.binding.beneficiaryId == b
    && var r := RegisterSource(db, step.operationId, step.binding);
       r.Ok? && r.value.1.outcome == Applied
  }

  /** The step completed an attempt of the beneficiary. */
  ghost predicate Finishing(db: Db, step: Step, b: string) {
    && step.Finish? && step.ticket.beneficiaryId == b
    && var r := FinishCollection(db, step.ticket, step.evidence, step.observations);
       r.Ok? && r.value.1.outcome == Applied
  }

  lemma RegisterKeepsLoad(db: Db, op: string, x: SourceBinding, b: string)
    requires Inv(db) && !Blank(b) && !Registering(db, Register(op, x), b)
    ensures Load(Apply(db, Register(op, x)).store, b) == Load(db.store, b)
  {
    hide Load, RegisterSource, Inv, RegistrationOp, LogInv, Records;
    if RegisterSource(db, op, x).Ok? {
      RegisterCases(db, op, x);
      var (after, receipt) := RegisterSource(db, op, x).value;
      if receipt.outcome == Applied {
        RegisterHasEffect(db, op, x, after, receipt.projectionRevision.value);
        InvHasLog(db);
        LoadFrame(db.store, after.store, b);
      }
    }
  }

  lemma BeginKeepsLoad(db: Db, beneficiary: string, id: string, b: string)
    requires Inv(db)
    ensures Load(Apply(db, Begin(beneficiary, id)).store, b) == Load(db.store, b)
  {
    hide Load, BeginCollection, Inv, StoredTicket, BindingsAt;
    if BeginCollection(db, beneficiary, id).Ok? {
      BeginCases(db, beneficiary, id);
    }
  }

  lemma FinishKeepsLoad(db: Db, t: CollectionTicket, evidence: string, obs: seq<Observation>, b: string)
    requires Inv(db) && !Blank(b) && !Finishing(db, Finish(t, evidence, obs), b)
    ensures Load(Apply(db, Finish(t, evidence, obs)).store, b) == Load(db.store, b)
  {
    hide Load, FinishCollection, Inv, LoadsBatch, LogInv, Extends, FinishEffect, FinishReplays;
    if FinishCollection(db, t, evidence, obs).Ok? {
      FinishCases(db, t, evidence, obs);
      var (after, receipt) := FinishCollection(db, t, evidence, obs).value;
      if receipt.outcome == Applied {
        FinishLoads(db, t, evidence, obs);
        FinishApplied(db, t, evidence, obs);
        InvHasLog(db);
        InvHasLog(after);
        LoadFrame(db.store, after.store, b);
      }
    }
  }

  // ---------- whole runs ----------

  ghost predicate Effective(steps: seq<Step>, i: nat, b: string)
    requires i < |steps|
  {
    Registering(Run(EMPTY, steps[..i]), steps[i], b) || Finishing(Run(EMPTY, steps[..i]), steps[i], b)
  }

  /** The last step that added a source of the beneficiary or completed an attempt. */
  ghost predicate LastEffective(steps: seq<Step>, i: nat, b: string) {
    && i < |steps| && Effective(steps, i, b)
    && forall j :: i < j < |steps| ==> !Effective(steps, j, b)
  }

  /** What loads after that step. */
  ghost predicate LoadsAfter(steps: seq<Step>, i: nat, b: string, r: Result<LoadedCoverage, StoreError>)
    requires i < |steps|
  {
    match steps[i]
    case Register(_, _) => r == Err(ProjectionUnavailable(NeedsReconciliation))
    case Begin(_, _) => false
    case Finish(t, evidence, obs) =>
      var finished := FinishCollection(Run(EMPTY, steps[..i]), t, evidence, obs);
      finished.Ok? && LoadsBatch(b, obs, finished.value.1.revision, r)
  }

  lemma EffectiveLoads(db: Db, step: Step, b: string)
    requires Inv(db) && !Blank(b)
    ensures Registering(db, step, b) ==>
              step.Register? && Load(Apply(db, step).store, b) == Err(ProjectionUnavailable(NeedsReconciliation))
    ensures Finishing(db, step, b) ==>
              var r := FinishCollection(db, step.ticket, step.evidence, step.observations);
              r.Ok? && LoadsBatch(b, step.observations, r.value.1.revision, Load(Apply(db, step).store, b))
    ensures !Registering(db, step, b) && !Finishing(db, step, b) ==>
              Load(Apply(db, step).store, b) == Load(db.store, b)
  {
    hide Load, FinishCollection, RegisterSource, BeginCollection, Inv, LoadsBatch, Extends;
    match step
    case Register(op, x) =>
      if Registering(db, step, b) {
        RegistrationPublishes(db, op, x);
      } else {
        RegisterKeepsLoad(db, op, x, b);
      }
    case Begin(beneficiary, id) => BeginKeepsLoad(db, beneficiary, id, b);
    case Finish(t, evidence, obs) =>
      if Finishing(db, step, b) {
        FinishLoads(db, t, evidence, obs);
      } else {
        FinishKeepsLoad(db, t, evidence, obs, b);
      }
  }

  lemma EffectiveInit(steps: seq<Step>, i: nat, b: string)
    requires i + 1 < |steps|
    ensures Effective(steps, i, b) == Effective(steps[..|steps| - 1], i, b)
    ensures forall r :: LoadsAfter(steps, i, b, r) == LoadsAfter(steps[..|steps| - 1], i, b, r)
  {
    hide Registering, Finishing, FinishCollection, LoadsBatch;
    assert steps[..|steps| - 1][..i] == steps[..i];
  }

  /** At every moment of every run: a beneficiary without a source has nothing; once a source is
      registered nothing loads until a finish takes effect; and after that what loads is what its
      observations say, whatever else any worker does, until the next registration or finish. */
  lemma {:induction false} LoadingFollowsRun(steps: seq<Step>, b: string)
    requires !Blank(b)
    ensures (forall i :: 0 <= i < |steps| ==> !Effective(steps, i, b)) ==>
              Load(Run(EMPTY, steps).store, b) == Err(ProjectionMissing)
    ensures forall i :: 0 <= i < |steps| && LastEffective(steps, i, b) ==>
              LoadsAfter(steps, i, b, Load(Run(EMPTY, steps).store, b))
  {
    hide Load, Registering, Finishing, FinishCollection, Inv, LoadsBatch, Apply;
    if steps == [] {
      EmptyLoads(b);
    } else {
      var n := |steps| - 1;
      var init, last := steps[..n], steps[n];
      var db := Run(EMPTY, init);
      LoadingFollowsRun(init, b);
      EmptyInv();
      RunKeepsInv(EMPTY, init);
      EffectiveLoads(db, last, b);
      forall i | 0 <= i < n
        ensures Effective(steps, i, b) == Effective(init, i, b)
        ensures forall r :: LoadsAfter(steps, i, b, r) == LoadsAfter(init, i, b, r)
      {
        EffectiveInit(steps, i, b);
      }
      assert Effective(steps, n, b) == (Registering(db, last, b) || Finishing(db, last, b));
      forall i | 0 <= i < |steps| && LastEffective(steps, i, b)
        ensures LoadsAfter(steps, i, b, Load(Run(EMPTY, steps).store, b))
      {
        if i < n {
          assert !Effective(steps, n, b);
          assert forall j :: i < j < n ==> Effective(steps, j, b) == Effective(init, j, b);
          assert LastEffective(init, i, b);
        } else {
          NotBoth(db, last, b);
        }
      }
      if forall i :: 0 <= i < |steps| ==> !Effective(steps, i, b) {
        assert forall i :: 0 <= i < n ==> Effective(steps, i, b) == Effective(init, i, b);
      }
    }
  }

  lemma NotBoth(db: Db, step: Step, b: string)
    ensures Registering(db, step, b) ==> step.Register?
    ensures Finishing(db, step, b) ==> step.Finish?
  {
    hide RegisterSource, FinishCollection;
  }

  lemma EmptyLoads(b: string)
    requires !Blank(b)
    ensures Load(EMPTY.store, b) == Err(ProjectionMissing)
  {
  }
}
