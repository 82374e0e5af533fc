/** The coordinator: registering coverage sources, and collecting all of them into one projection.

    Each public operation is one transaction. Its specification gives the new tables, or an error
    after which the caller rolls back. */
module Reconciliation {
  import opened Outcomes
  import opened Ordering
  import opened Text
  import opened Coverage
  import opened CoverageStore
  import opened Collection
  import opened StoredForms
  import Json

  // ---------- tables ----------

  datatype CoordinatorRow = CoordinatorRow(
    generation: Int64, epoch: Int64, currentAttempt: Option<string>)

  datatype SourceRow = SourceRow(
    binding: SourceBinding,
    operationId: string,
    generation: Int64,
    projectionRevision: Option<Int64>)

  datatype CollectionStatus = Pending | Superseded | Completed

  datatype AttemptRow = AttemptRow(
    epoch: Int64,
    generation: Int64,
    expected: Option<Int64>,
    bindings: Json.Value,
    status: CollectionStatus,
    evidence: Option<string>,
    result: Option<Json.Value>,
    revision: Option<Int64>)

  datatype Db = Db(
    store: Tables,
    coordinators: map<string, CoordinatorRow>,
    sources: map<string, SourceRow>,
    attempts: map<(string, string), AttemptRow>)

  datatype CollectionTicket = CollectionTicket(
    beneficiaryId: string,
    attemptId: string,
    epoch: Int64,
    generation: Int64,
    expected: Option<Int64>,
    bindings: seq<SourceBinding>,
    status: CollectionStatus,
    completedRevision: Option<Int64>)

  datatype RegistrationReceipt = RegistrationReceipt(
    sourceId: string,
    generation: Int64,
    projectionRevision: Option<Int64>,
    outcome: PublicationOutcome)

  datatype ReconciliationReceipt = ReconciliationReceipt(
    attemptId: string, revision: Int64, outcome: PublicationOutcome)

  function RegistrationOp(operationId: string): string { "source-registration:" + operationId }

  function CollectionOp(attemptId: string): string { "collection:" + attemptId }

  // ---------- selecting sources ----------

  predicate SourceOf(row: SourceRow, b: string) { row.binding.beneficiaryId == b }

  function SourceKeys(sources: map<string, SourceRow>, b: string): set<string> {
    set s | s in sources && SourceOf(sources[s], b)
  }

  function SourceKeysUpTo(sources: map<string, SourceRow>, b: string, generation: Int64): set<string> {
    set s | s in sources && SourceOf(sources[s], b) && sources[s].generation <= generation
  }

  /** The bindings of some sources, ascending by source id. */
  ghost function BindingsOf(sources: map<string, SourceRow>, keys: set<string>): seq<SourceBinding>
    requires keys <= sources.Keys
  {
    var ids := SortedKeys(keys);
    seq(|ids|, i requires 0 <= i < |ids| => sources[ids[i]].binding)
  }

  ghost predicate Registers(sources: map<string, SourceRow>, b: string, op: string, s: string) {
    s in sources && SourceOf(sources[s], b) && sources[s].operationId == op
  }

  ghost function FindRegistration(sources: map<string, SourceRow>, b: string, op: string)
    : (r: Option<string>)
    ensures r.Some? ==> Registers(sources, b, op, r.value)
    ensures r.None? ==> forall s :: !Registers(sources, b, op, s)
  {
    if exists s :: Registers(sources, b, op, s)
    then var s :| Registers(sources, b, op, s); Some(s)
    else None
  }

  predicate AllocationTaken(sources: map<string, SourceRow>, x: SourceBinding) {
    exists s :: s in sources
      && sources[s].binding.providerNamespace == x.providerNamespace
      && sources[s].binding.externalAllocationReference == x.externalAllocationReference
  }

  // ---------- registering a source ----------

  function CoordinatorAt(db: Db, b: string): CoordinatorRow {
    if b in db.coordinators then db.coordinators[b] else CoordinatorRow(0, 0, None)
  }

  function Supersede(a: AttemptRow): AttemptRow {
    if a.status == Pending then a.(status := Superseded) else a
  }

  function SupersedeAll(attempts: map<(string, string), AttemptRow>, b: string)
    : map<(string, string), AttemptRow>
  {
    map k | k in attempts :: if k.0 == b then Supersede(attempts[k]) else attempts[k]
  }

  function RegistrationRequest(binding: SourceBinding, op: string, expected: Option<Int64>): Request {
    Request(binding.beneficiaryId, expected, RegistrationOp(op), binding.ownershipEvidenceReference,
            Unavailable(NeedsReconciliation))
  }

  function Registered(
    db: Db, binding: SourceBinding, op: string, generation: Int64, store: Tables, revision: Int64): Db
  {
    var b := binding.beneficiaryId;
    Db(store,
       db.coordinators[b := CoordinatorAt(db, b).(generation := generation, currentAttempt := None)],
       db.sources[binding.sourceId := SourceRow(binding, op, generation, Some(revision))],
       SupersedeAll(db.attempts, b))
  }

  ghost function RegisterSource(db: Db, op: string, binding: SourceBinding)
    : Result<(Db, RegistrationReceipt), ReconciliationError>
  {
    var b := binding.beneficiaryId;
    if Blank(op) then Err(ReconciliationError.EmptyOperationId)
    else if ValidateBinding(binding).Err? then Err(InvalidSource)
    else
      match CurrentRevision(db.store, b)
      case Err(e) => Err(Store(e))
      case Ok(expected) =>
        if b !in db.coordinators && expected.Some? then Err(BootstrapConflict)
        else if CoordinatorAt(db, b).generation == 0 && expected.Some? then Err(BootstrapConflict)
        else RegisterLocked(db, op, binding, expected)
  }

  /** Registering once the coordinator row is locked and the head has been read. */
  ghost function RegisterLocked(db: Db, op: string, binding: SourceBinding, expected: Option<Int64>)
    : Result<(Db, RegistrationReceipt), ReconciliationError>
  {
    match FindRegistration(db.sources, binding.beneficiaryId, op)
    case Some(s) => RegisterAgain(db, binding, db.sources[s])
    case None => RegisterNew(db, op, binding, expected)
  }

  function RegisterAgain(db: Db, binding: SourceBinding, row: SourceRow)
    : Result<(Db, RegistrationReceipt), ReconciliationError>
  {
    var b := binding.beneficiaryId;
    if row.binding != binding then Err(RegistrationConflict)
    else if row.projectionRevision.None? then Err(CorruptRegistration)
    else
      Ok((db.(coordinators := db.coordinators[b := CoordinatorAt(db, b)]),
          RegistrationReceipt(row.binding.sourceId, row.generation, row.projectionRevision, AlreadyApplied)))
  }

  ghost function RegisterNew(db: Db, op: string, binding: SourceBinding, expected: Option<Int64>)
    : Result<(Db, RegistrationReceipt), ReconciliationError>
  {
    RegisterWith(db, op, binding, Publish(db.store, RegistrationRequest(binding, op, expected)))
  }

  /** A new registration, given how its publication turns out. */
  function RegisterWith(
    db: Db, op: string, binding: SourceBinding,
    publication: Result<(Tables, PublicationReceipt), StoreError>)
    : Result<(Db, RegistrationReceipt), ReconciliationError>
  {
    if binding.sourceId in db.sources || AllocationTaken(db.sources, binding)
    then Err(SourceBindingConflict)
    else
      match CheckedAdd(CoordinatorAt(db, binding.beneficiaryId).generation, 1)
      case None => Err(GenerationOverflow)
      case Some(generation) =>
        match publication
        case Err(e) => Err(Store(e))
        case Ok((store, receipt)) =>
          Ok((Registered(db, binding, op, generation, store, receipt.revision),
              RegistrationReceipt(binding.sourceId, generation, Some(receipt.revision), receipt.outcome)))
  }

  // ---------- beginning a collection ----------

  datatype Completion = Completion(evidence: string, result: Json.Value, revision: Int64)

  function TicketOf(b: string, id: string, row: AttemptRow): Parsed<CollectionTicket> {
    match ParseStoredBindings(row.bindings, b)
    case Err(e) => Err(e)
    case Ok(bindings) =>
      Ok(CollectionTicket(b, id, row.epoch, row.generation, row.expected, bindings, row.status, row.revision))
  }

  ghost predicate AuthoritativeBindings(sources: map<string, SourceRow>, t: CollectionTicket) {
    var keys := SourceKeysUpTo(sources, t.beneficiaryId, t.generation);
    && (exists s :: s in keys && sources[s].generation == t.generation)
    && BindingsOf(sources, keys) == t.bindings
  }

  function StoredCompletion(row: AttemptRow): Parsed<Option<Completion>> {
    match (row.status, row.evidence, row.result, row.revision)
    case (Completed, Some(evidence), Some(result), Some(revision)) =>
      Ok(Some(Completion(evidence, result, revision)))
    case (Pending, None, None, None) => Ok(None)
    case (Superseded, None, None, None) => Ok(None)
    case _ => Corrupt(CompletionReceipt)
  }

  ghost function ValidateStoredAttempt(sources: map<string, SourceRow>, t: CollectionTicket, row: AttemptRow)
    : Parsed<Option<Completion>>
  {
    if !AuthoritativeBindings(sources, t) then Corrupt(BindingSourceSet)
    else
      match StoredCompletion(row)
      case Err(e) => Err(e)
      case Ok(None) => Ok(None)
      case Ok(Some(done)) =>
        match ValidateStoredResult(t.beneficiaryId, t.bindings, done.evidence, done.result)
        case Err(e) => Err(e)
        case Ok(canonical) => Ok(Some(done.(result := canonical)))
  }

  predicate EpochTaken(attempts: map<(string, string), AttemptRow>, b: string, epoch: Int64) {
    exists k :: k in attempts && k.0 == b && attempts[k].epoch == epoch
  }

  function SupersedeOne(attempts: map<(string, string), AttemptRow>, b: string, id: Option<string>)
    : map<(string, string), AttemptRow>
  {
    if id.Some? && (b, id.value) in attempts
    then attempts[(b, id.value) := Supersede(attempts[(b, id.value)])] else attempts
  }

  ghost function Begun(db: Db, b: string, id: string, epoch: Int64, expected: Option<Int64>)
    : (Db, CollectionTicket)
  {
    var c := CoordinatorAt(db, b);
    var bindings := BindingsOf(db.sources, SourceKeys(db.sources, b));
    (db.(attempts := SupersedeOne(db.attempts, b, c.currentAttempt)[
           (b, id) := AttemptRow(epoch, c.generation, expected, BindingsJson(bindings), Pending, None, None, None)],
         coordinators := db.coordinators[b := c.(epoch := epoch, currentAttempt := Some(id))]),
     CollectionTicket(b, id, epoch, c.generation, expected, bindings, Pending, None))
  }

  ghost function BeginCollection(db: Db, b: string, id: string)
    : Result<(Db, CollectionTicket), ReconciliationError>
  {
    if Blank(b) then Err(InvalidIdentifier)
    else if Blank(id) then Err(EmptyAttemptId)
    else if b !in db.coordinators then Err(NoSources)
    else if (b, id) in db.attempts then
      match TicketOf(b, id, db.attempts[(b, id)])
      case Err(e) => Err(e)
      case Ok(ticket) =>
        match ValidateStoredAttempt(db.sources, ticket, db.attempts[(b, id)])
        case Err(e) => Err(e)
        case Ok(_) => Ok((db, ticket))
    else BeginNew(db, b, id)
  }

  ghost function BeginNew(db: Db, b: string, id: string)
    : Result<(Db, CollectionTicket), ReconciliationError>
    requires b in db.coordinators
  {
    if SourceKeys(db.sources, b) == {} || db.coordinators[b].generation == 0 then Err(NoSources)
    else
      match CurrentRevision(db.store, b)
      case Err(e) => Err(Store(e))
      case Ok(expected) =>
        match CheckedAdd(db.coordinators[b].epoch, 1)
        case None => Err(EpochOverflow)
        case Some(epoch) =>
          if EpochTaken(db.attempts, b, epoch) then Err(DatabaseFailure)
          else Ok(Begun(db, b, id, epoch, expected))
  }

  // ---------- finishing a collection ----------

  function CollectionRequest(t: CollectionTicket, evidence: string, projection: Projection): Request {
    Request(t.beneficiaryId, t.expected, CollectionOp(t.attemptId), evidence, projection)
  }

  function Finished(
    db: Db, t: CollectionTicket, evidence: string, result: Json.Value, store: Tables, revision: Int64): Db
    requires t.beneficiaryId in db.coordinators && (t.beneficiaryId, t.attemptId) in db.attempts
  {
    var key := (t.beneficiaryId, t.attemptId);
    var c := db.coordinators[t.beneficiaryId];
    Db(store,
       db.coordinators[t.beneficiaryId :=
         if c.currentAttempt == Some(t.attemptId) then c.(currentAttempt := None) else c],
       db.sources,
       db.attempts[key := db.attempts[key].(
         status := Completed, evidence := Some(evidence), result := Some(result), revision := Some(revision))])
  }

  /** The ticket a worker holds against the one stored. */
  predicate SameTicket(stored: CollectionTicket, held: CollectionTicket) {
    && stored.beneficiaryId == held.beneficiaryId
    && stored.epoch == held.epoch
    && stored.generation == held.generation
    && stored.expected == held.expected
    && stored.bindings == held.bindings
  }

  ghost function FinishCollection(
    db: Db, t: CollectionTicket, evidence: string, obs: seq<Observation>)
    : Result<(Db, ReconciliationReceipt), ReconciliationError>
  {
    var b, key := t.beneficiaryId, (t.beneficiaryId, t.attemptId);
    if Blank(b) then Err(InvalidIdentifier)
    else if Blank(t.attemptId) then Err(EmptyAttemptId)
    else if b !in db.coordinators then Err(NoSources)
    else if key !in db.attempts then Err(AttemptMissing)
    else
      match TicketOf(b, t.attemptId, db.attempts[key])
      case Err(e) => Err(e)
      case Ok(stored) =>
        match ValidateStoredAttempt(db.sources, stored, db.attempts[key])
        case Err(e) => Err(e)
        case Ok(completion) => FinishStored(db, t, stored, completion, evidence, obs)
  }

  /** Finishing once the stored attempt has been read and validated. */
  ghost function FinishStored(
    db: Db, t: CollectionTicket, stored: CollectionTicket, completion: Option<Completion>,
    evidence: string, obs: seq<Observation>)
    : Result<(Db, ReconciliationReceipt), ReconciliationError>
    requires t.beneficiaryId in db.coordinators && (t.beneficiaryId, t.attemptId) in db.attempts
  {
    if !SameTicket(stored, t) then Err(CollectionConflict)
    else
      match stored.status
      case Completed =>
        (match FinishAgain(t, completion, evidence, obs)
         case Err(e) => Err(e)
         case Ok(receipt) => Ok((db, receipt)))
      case Superseded => Err(AttemptSuperseded)
      case Pending => FinishPending(db, t, evidence, obs)
  }

  /** Replaying a finish that already happened. */
  function FinishAgain(
    t: CollectionTicket, completion: Option<Completion>, evidence: string, obs: seq<Observation>)
    : Result<ReconciliationReceipt, ReconciliationError>
  {
    match CanonicalCollection(t.beneficiaryId, t.bindings, obs, evidence)
    case Err(_) => Err(ReconciliationError.OperationConflict)
    case Ok((canonical, _)) =>
      match completion
      case None => Corrupt(CompletionReceipt)
      case Some(done) =>
        if done.evidence == evidence && done.result == canonical
        then Ok(ReconciliationReceipt(t.attemptId, done.revision, AlreadyApplied))
        else Err(ReconciliationError.OperationConflict)
  }

  ghost function FinishPending(
    db: Db, t: CollectionTicket, evidence: string, obs: seq<Observation>)
    : Result<(Db, ReconciliationReceipt), ReconciliationError>
    requires t.beneficiaryId in db.coordinators && (t.beneficiaryId, t.attemptId) in db.attempts
  {
    var b, c := t.beneficiaryId, db.coordinators[t.beneficiaryId];
    if Blank(evidence) then Err(InvalidIdentifier)
    else
      match CanonicalCollection(b, t.bindings, obs, evidence)
      case Err(e) => Err(e)
      case Ok((result, projection)) =>
        if c.currentAttempt != Some(t.attemptId) || c.generation != t.generation || c.epoch != t.epoch
        then Err(CollectionConflict)
        else
          match CurrentRevision(db.store, b)
          case Err(e) => Err(Store(e))
          case Ok(actual) =>
            if actual != t.expected then Err(Store(RevisionConflict(t.expected, actual)))
            else
              match Publish(db.store, CollectionRequest(t, evidence, projection))
              case Err(e) => Err(Store(e))
              case Ok((store, receipt)) =>
                Ok((Finished(db, t, evidence, result, store, receipt.revision),
                    ReconciliationReceipt(t.attemptId, receipt.revision, receipt.outcome)))
  }
}
